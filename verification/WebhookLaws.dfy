/** Laws of webhook delivery: repeats change nothing, independent deliveries commute, and the first terminal
    outcome of a transfer is final. */
module WebhookLaws {
  import opened Options
  import opened Commutation
  import opened Ledger
  import opened LedgerTotals
  import opened LedgerInvariant

  // ----- repeats -----

  /** A delivery that has nothing left to do: its id is recorded, or it is a charge on a path that returns
      before the commit and so never leaves a dedup row. */
  predicate Inert(s: Store, e: Event) {
    || e.id in s.seen
    || (e.kind.ChargeSuccess? &&
        (e.reference == "" || (e.reference in s.txns && s.txns[e.reference].status == TxnSuccess)))
  }

  lemma InertIffNoChange(s: Store, e: Event)
    requires Linked(s)
    ensures Deliver(s, e) == s <==> Inert(s, e)
  {
  }

  lemma DeliveredIsInert(s: Store, e: Event)
    requires Linked(s)
    ensures Inert(Deliver(s, e), e)
  {
  }

  lemma InertStaysInert(s: Store, st: Step, e: Event)
    requires Inert(s, e)
    ensures Inert(Apply(s, st), e)
  {
  }

  // ----- order -----

  /** Each bill has at most one transaction a transfer webhook could still settle. */
  ghost predicate OneOpenPerBill(s: Store) {
    forall r1, r2 :: Open(s, r1) && Open(s, r2) && s.txns[r1].bill == s.txns[r2].bill ==> r1 == r2
  }

  ghost predicate Quiet(s: Store) {
    Linked(s) && OneOpenPerBill(s)
  }

  predicate Open(s: Store, r: Ref) {
    r in s.txns && s.txns[r].bill.Some? && !Terminal(s.txns[r])
  }

  lemma InvMeansQuiet(s: Store)
    requires Inv(s)
    ensures Quiet(s)
  {
    forall r1, r2 | Open(s, r1) && Open(s, r2) && s.txns[r1].bill == s.txns[r2].bill ensures r1 == r2 {
      assert RowOk(s, s.txns[r1]) && RowOk(s, s.txns[r2]);
      ChargedAtMostOnce(s, s.txns[r1].bill.value);
    }
  }

  lemma DeliveryOnlyCloses(s: Store, e: Event)
    ensures forall r :: Open(Deliver(s, e), r) ==> Open(s, r) && Deliver(s, e).txns[r].bill == s.txns[r].bill
    ensures OneOpenPerBill(s) ==> OneOpenPerBill(Deliver(s, e))
  {
  }

  predicate Independent(e1: Event, e2: Event) {
    e1.id != e2.id && e1.reference != e2.reference
  }

  lemma EffectUndisturbed(s: Store, e1: Event, e2: Event)
    requires Linked(s) && Independent(e1, e2)
    ensures EffectOf(Deliver(s, e1), e2) == EffectOf(s, e2)
  {
  }

  lemma WritesCommute<K, V>(m: map<K, V>, k1: K, v1: V, k2: K, v2: V)
    requires k1 != k2
    ensures m[k1 := v1][k2 := v2] == m[k2 := v2][k1 := v1]
  {
  }

  lemma TopUpsCommute(users: map<UserId, int>, u1: UserId, n1: int, u2: UserId, n2: int)
    requires u1 in users && u2 in users
    ensures TopUp(TopUp(users, u1, n1), u2, n2) == TopUp(TopUp(users, u2, n2), u1, n1)
  {
  }

  lemma CreditsCommute(s: Store, r1: Ref, n1: int, r2: Ref, n2: int)
    requires r1 != r2 && r1 in s.txns && r2 in s.txns
    requires s.txns[r1].user in s.users && s.txns[r2].user in s.users
    ensures CreditWallet(CreditWallet(s, r1, n1), r2, n2) == CreditWallet(CreditWallet(s, r2, n2), r1, n1)
  {
  }

  lemma CreditAndSettleCommute(s: Store, r1: Ref, n: int, r2: Ref, success: bool)
    requires r1 != r2 && r1 in s.txns && s.txns[r1].user in s.users && Settleable(s, r2)
    ensures Settle(CreditWallet(s, r1, n), r2, success) == CreditWallet(Settle(s, r2, success), r1, n)
  {
    var t1, t2 := CreditWallet(s, r1, n).txns[r1], Settle(s, r2, success).txns[r2];
    WritesCommute(s.txns, r1, t1, r2, t2);
    TopUpsCommute(s.users, t1.user, n, t2.user, t2.amount + t2.fee);
  }

  lemma SettlesCommute(s: Store, r1: Ref, ok1: bool, r2: Ref, ok2: bool)
    requires r1 != r2 && Settleable(s, r1) && Settleable(s, r2) && s.txns[r1].bill != s.txns[r2].bill
    ensures Settle(Settle(s, r1, ok1), r2, ok2) == Settle(Settle(s, r2, ok2), r1, ok1)
  {
    var s1, s2 := Settle(s, r1, ok1), Settle(s, r2, ok2);
    var t1, t2 := s1.txns[r1], s2.txns[r2];
    var b1, b2 := t1.bill.value, t2.bill.value;
    WritesCommute(s.txns, r1, t1, r2, t2);
    WritesCommute(s.bills, b1, s1.bills[b1], b2, s2.bills[b2]);
    TopUpsCommute(s.users, t1.user, t1.amount + t1.fee, t2.user, t2.amount + t2.fee);
  }

  lemma ActsCommute(s: Store, e1: Event, e2: Event)
    requires OneOpenPerBill(s) && e1.reference != e2.reference
    ensures Act(Act(s, e1.reference, EffectOf(s, e1)), e2.reference, EffectOf(s, e2))
            == Act(Act(s, e2.reference, EffectOf(s, e2)), e1.reference, EffectOf(s, e1))
  {
    match (EffectOf(s, e1), EffectOf(s, e2)) {
      case (Credits(n1), Credits(n2)) => CreditsCommute(s, e1.reference, n1, e2.reference, n2);
      case (Credits(n), Settles(ok)) => CreditAndSettleCommute(s, e1.reference, n, e2.reference, ok);
      case (Settles(ok), Credits(n)) => CreditAndSettleCommute(s, e2.reference, n, e1.reference, ok);
      case (Settles(ok1), Settles(ok2)) =>
        assert Open(s, e1.reference) && Open(s, e2.reference);
        SettlesCommute(s, e1.reference, ok1, e2.reference, ok2);
      case _ =>
    }
  }

  lemma RecordingCommutes(s: Store, id: EventId, r: Ref, effect: Effect)
    ensures Act(Record(s, id), r, effect) == Record(Act(s, r, effect), id)
  {
  }

  lemma TwoDeliveries(s: Store, e1: Event, e2: Event)
    requires Linked(s) && Independent(e1, e2)
    requires !EffectOf(s, e1).Dropped? && !EffectOf(s, e2).Dropped?
    ensures Deliver(Deliver(s, e1), e2)
            == Record(Record(Act(Act(s, e1.reference, EffectOf(s, e1)), e2.reference, EffectOf(s, e2)), e1.id), e2.id)
  {
    EffectUndisturbed(s, e1, e2);
    RecordingCommutes(Act(s, e1.reference, EffectOf(s, e1)), e1.id, e2.reference, EffectOf(s, e2));
  }

  /** Two deliveries with different ids and references commute, even when both concern one bill: only one of
      them can still settle it. */
  lemma DeliveriesCommute(s: Store, e1: Event, e2: Event)
    requires Quiet(s) && Independent(e1, e2)
    ensures Deliver(Deliver(s, e1), e2) == Deliver(Deliver(s, e2), e1)
  {
    if EffectOf(s, e1).Dropped? {
      EffectUndisturbed(s, e2, e1);
    } else if EffectOf(s, e2).Dropped? {
      EffectUndisturbed(s, e1, e2);
    } else {
      TwoDeliveries(s, e1, e2);
      TwoDeliveries(s, e2, e1);
      ActsCommute(s, e1, e2);
      RecordsCommute(Act(Act(s, e1.reference, EffectOf(s, e1)), e2.reference, EffectOf(s, e2)), e1.id, e2.id);
    }
  }

  lemma RecordsCommute(s: Store, id1: EventId, id2: EventId)
    ensures Record(Record(s, id1), id2) == Record(Record(s, id2), id1)
  {
  }

  /** The invariant is what makes them commute: with two open debits on one bill, a success and a failure would
      leave the bill `paid` or back in the queue depending on which came last. */
  lemma TwoOpenDebitsDoNotCommute(s: Store, e1: Event, e2: Event)
    requires Linked(s) && Independent(e1, e2) && e1.id !in s.seen && e2.id !in s.seen
    requires e1.kind.TransferSuccess? && e2.kind.TransferFailed?
    requires Open(s, e1.reference) && Open(s, e2.reference)
    requires s.txns[e1.reference].bill == s.txns[e2.reference].bill
    ensures Deliver(Deliver(s, e1), e2) != Deliver(Deliver(s, e2), e1)
  {
    EffectUndisturbed(s, e1, e2);
    EffectUndisturbed(s, e2, e1);
    var b := s.txns[e1.reference].bill.value;
    assert Deliver(Deliver(s, e2), e1).bills[b].status == Paid;
    assert Deliver(Deliver(s, e1), e2).bills[b].status != Paid;
  }

  /** Confluence: a batch of deliveries with distinct event ids and at most one event per reference leads to
      the same store in every order. Every state that satisfies the invariant is quiet. */
  lemma Confluence(s: Store, es: seq<Event>, es': seq<Event>)
    requires Quiet(s)
    requires IndependentBatch(Independent, es) && IndependentBatch(Independent, es') && SameSteps(es, es')
    ensures Fold(Deliver, s, es) == Fold(Deliver, s, es')
  {
    DeliverCommutes();
    Reorder(Deliver, Quiet, Independent, s, es, es');
  }

  lemma DeliverCommutes()
    ensures Commutes(Deliver, Quiet, Independent)
  {
    forall s, e | Quiet(s) ensures Quiet(Deliver(s, e)) {
      LinkedIsKept(s, Webhook(e));
      DeliveryOnlyCloses(s, e);
    }
    forall s, e1, e2 | Quiet(s) && Independent(e1, e2)
      ensures Deliver(Deliver(s, e1), e2) == Deliver(Deliver(s, e2), e1)
    {
      DeliveriesCommute(s, e1, e2);
    }
  }

  // ----- finality -----

  lemma FinalDebitStays(s: Store, st: Step, r: Ref)
    requires Inv(s) && Safe(s, st) && r in s.txns && s.txns[r].kind.Debit? && Terminal(s.txns[r])
    ensures r in Apply(s, st).txns && Apply(s, st).txns[r] == s.txns[r]
  {
  }

  /** Whatever deliveries follow, under whatever event ids, the first terminal outcome of a payout stays. */
  lemma {:induction false} FirstOutcomeIsFinal(s: Store, steps: seq<Step>, r: Ref)
    requires Inv(s) && SafeRun(s, steps)
    requires r in s.txns && s.txns[r].kind.Debit? && Terminal(s.txns[r])
    ensures r in Run(s, steps).txns && Run(s, steps).txns[r] == s.txns[r]
    decreases |steps|
  {
    if steps != [] {
      FinalDebitStays(s, steps[0], r);
      StepKeepsInvIffSafe(s, steps[0]);
      FirstOutcomeIsFinal(Apply(s, steps[0]), steps[1..], r);
    }
  }

  // ----- refunds -----

  /** What a step pays back into the owner's wallet on account of transfer webhooks for `r`. */
  function RefundedBy(s: Store, st: Step, r: Ref): int {
    if st.Webhook? && IsTransfer(st.event) && st.event.reference == r && r in s.txns && s.txns[r].user in s.users
       && s.txns[r].user in Apply(s, st).users
    then Apply(s, st).users[s.txns[r].user] - s.users[s.txns[r].user]
    else 0
  }

  function RefundedOver(s: Store, steps: seq<Step>, r: Ref): int
    decreases |steps|
  {
    if steps == [] then 0 else RefundedBy(s, steps[0], r) + RefundedOver(Apply(s, steps[0]), steps[1..], r)
  }

  lemma RefundOfOneStep(s: Store, st: Step, r: Ref)
    requires Inv(s) && Safe(s, st) && r in s.txns && s.txns[r].kind.Debit?
    ensures r in Apply(s, st).txns
    ensures Apply(s, st).txns[r].(status := s.txns[r].status) == s.txns[r]
    ensures RefundedBy(s, st, r)
            == if s.txns[r].status == TxnProcessing && Apply(s, st).txns[r].status == TxnFailed
               then s.txns[r].amount + s.txns[r].fee else 0
  {
  }

  /** Over a whole run the hold of a payout is refunded once, for exactly the amount and fee recorded with the
      debit, if its first terminal outcome is a failure, and never otherwise. */
  lemma {:induction false} RefundedAtMostOnce(s: Store, steps: seq<Step>, r: Ref)
    requires Inv(s) && SafeRun(s, steps) && r in s.txns && s.txns[r].kind.Debit?
    ensures r in Run(s, steps).txns
    ensures Run(s, steps).txns[r].(status := s.txns[r].status) == s.txns[r]
    ensures RefundedOver(s, steps, r)
            == if s.txns[r].status == TxnProcessing && Run(s, steps).txns[r].status == TxnFailed
               then s.txns[r].amount + s.txns[r].fee else 0
    decreases |steps|
  {
    if steps != [] {
      var s' := Apply(s, steps[0]);
      RefundOfOneStep(s, steps[0], r);
      StepKeepsInvIffSafe(s, steps[0]);
      RefundedAtMostOnce(s', steps[1..], r);
      if Terminal(s'.txns[r]) {
        FirstOutcomeIsFinal(s', steps[1..], r);
      } else {
        assert RowOk(s', s'.txns[r]);
      }
    }
  }
}
