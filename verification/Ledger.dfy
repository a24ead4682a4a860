/** The committed database: users, bills, transactions and the webhook dedup table, and what one committed
    database transaction does to them. Every operation is total: an attempt the source refuses (and rolls
    back) leaves the store as it was. Money is in kobo. */
module Ledger {
  import opened Options
  import opened Decisions

  type UserId = int
  type BillId = int
  type Ref = string
  type EventId = string

  datatype BillStatus = Pending | Scheduled | Processing | Paid | Failed | Cancelled

  datatype TxnKind = Credit | Debit

  datatype TxnStatus = TxnPending | TxnProcessing | TxnSuccess | TxnFailed | TxnReversed

  /** `hasAccount`: both `account_number` and `bank_code` are filled in. */
  datatype Bill = Bill(user: UserId, amount: nat, due: Time, status: BillStatus, retries: nat,
                       maxRetries: nat, hasAccount: bool)

  /** `credited` is history, not a column: what a `charge.success` for this reference added to the wallet
      (the source keeps it in the audit row only). */
  datatype Txn = Txn(kind: TxnKind, user: UserId, bill: Option<BillId>, amount: nat, fee: nat,
                     status: TxnStatus, credited: int)

  /** `users` holds the wallet balances; `seen` the event ids in `webhook_events` (one provider). */
  datatype Store = Store(users: map<UserId, int>, bills: map<BillId, Bill>, txns: map<Ref, Txn>,
                         seen: set<EventId>)

  const EMPTY: Store := Store(map[], map[], map[], {})

  // ----- payout -----

  predicate Payable(status: BillStatus) {
    status != Paid && status != Cancelled && status != Processing
  }

  /** Everything `execute_payout` checks before it asks the provider. */
  predicate CanPay(s: Store, b: BillId, r: Ref, fee: nat) {
    && b in s.bills
    && s.bills[b].user in s.users
    && Payable(s.bills[b].status)
    && s.bills[b].amount + fee <= s.users[s.bills[b].user]
    && s.bills[b].hasAccount
    && r !in s.txns
  }

  function DebitFor(b: BillId, bill: Bill, fee: nat): Txn {
    Txn(Debit, bill.user, Some(b), bill.amount, fee, TxnProcessing, 0)
  }

  /** A committed payout: balance down by amount and fee, bill and new debit in `processing`. */
  function Payout(s: Store, b: BillId, r: Ref, fee: nat): Store {
    if CanPay(s, b, r, fee) then
      var bill := s.bills[b];
      s.(users := TopUp(s.users, bill.user, -(bill.amount + fee)),
         bills := s.bills[b := bill.(status := Processing)],
         txns := s.txns[r := DebitFor(b, bill, fee)])
    else s
  }

  /** One more failed attempt: back to `scheduled`, or `failed` once the retries are used up. */
  function AfterFailure(bill: Bill): Bill {
    bill.(retries := bill.retries + 1,
          status := if bill.retries + 1 >= bill.maxRetries then Failed else Scheduled)
  }

  // ----- webhooks -----

  datatype EventKind =
    | ChargeSuccess | TransferSuccess | TransferFailed | TransferReversed | AccountAssigned | Unmapped

  datatype Event = Event(kind: EventKind, reference: Ref, id: EventId, amount: Option<int>)

  predicate IsTransfer(e: Event) {
    e.kind.TransferSuccess? || e.kind.TransferFailed? || e.kind.TransferReversed?
  }

  predicate Terminal(t: Txn) {
    t.status == TxnSuccess || t.status == TxnFailed
  }

  /** What a delivery does, by the exit the handler takes. `Dropped` returns before any commit, so not even
      the dedup row stays; `Noted` commits the dedup row alone. */
  datatype Effect = Dropped | Noted | Credits(amount: int) | Settles(success: bool)

  function ChargeEffect(s: Store, e: Event): Effect {
    if e.reference == "" then Dropped
    else if e.reference !in s.txns then Noted
    else if s.txns[e.reference].status == TxnSuccess then Dropped
    else if s.txns[e.reference].user !in s.users then Dropped
    else Credits(match e.amount case None => 0 case Some(n) => n)
  }

  /** `confirm_payout` changes rows exactly for a reference of a bill's transaction that is not yet final. */
  predicate Settleable(s: Store, r: Ref) {
    && r in s.txns
    && s.txns[r].bill.Some?
    && s.txns[r].bill.value in s.bills
    && !Terminal(s.txns[r])
    && s.txns[r].user in s.users
  }

  function EffectOf(s: Store, e: Event): Effect {
    if e.id in s.seen then Dropped
    else if e.kind.ChargeSuccess? then ChargeEffect(s, e)
    else if IsTransfer(e) && Settleable(s, e.reference) then Settles(e.kind.TransferSuccess?)
    else Noted
  }

  function TopUp(users: map<UserId, int>, u: UserId, amount: int): map<UserId, int>
    requires u in users
  {
    users[u := users[u] + amount]
  }

  function CreditWallet(s: Store, r: Ref, amount: int): Store {
    if r !in s.txns || s.txns[r].user !in s.users then s
    else
      var t := s.txns[r];
      s.(users := TopUp(s.users, t.user, amount),
         txns := s.txns[r := t.(status := TxnSuccess, credited := t.credited + amount)])
  }

  /** The final transition of a payout: `paid`, or refunded and back for another attempt. */
  function Settle(s: Store, r: Ref, success: bool): Store {
    if !Settleable(s, r) then s
    else
      var t := s.txns[r];
      var b := t.bill.value;
      if success then
        s.(bills := s.bills[b := s.bills[b].(status := Paid)], txns := s.txns[r := t.(status := TxnSuccess)])
      else
        s.(users := TopUp(s.users, t.user, t.amount + t.fee),
           bills := s.bills[b := AfterFailure(s.bills[b])],
           txns := s.txns[r := t.(status := TxnFailed)])
  }

  /** The handler's own writes, without the dedup row. */
  function Act(s: Store, r: Ref, effect: Effect): Store {
    match effect
    case Credits(amount) => CreditWallet(s, r, amount)
    case Settles(success) => Settle(s, r, success)
    case _ => s
  }

  function Record(s: Store, id: EventId): Store {
    s.(seen := s.seen + {id})
  }

  function Deliver(s: Store, e: Event): Store {
    var effect := EffectOf(s, e);
    if effect.Dropped? then s else Record(Act(s, e.reference, effect), e.id)
  }

  // ----- user and scheduler actions -----

  predicate Cancellable(s: Store, b: BillId, caller: UserId) {
    b in s.bills && s.bills[b].user == caller && s.bills[b].status != Paid && s.bills[b].status != Processing
  }

  function Cancel(s: Store, b: BillId, caller: UserId): Store {
    if Cancellable(s, b, caller) then s.(bills := s.bills[b := s.bills[b].(status := Cancelled)]) else s
  }

  /** One turn of the scheduler's loop for a bill that is in its list of due bills. */
  function Reevaluate(s: Store, b: BillId, now: Time, fee: nat): Store {
    if b !in s.bills || s.bills[b].status != Scheduled || s.bills[b].user !in s.users then s
    else
      var bill := s.bills[b];
      match DecideForBill(s.users[bill.user], bill.amount, fee, bill.due, now)
      case PayNow => s.(bills := s.bills[b := bill.(status := Pending)])
      case _ => s
  }

  predicate NewBill(s: Store, b: BillId, bill: Bill) {
    && b !in s.bills && bill.user in s.users
    && (bill.status == Pending || bill.status == Scheduled) && bill.retries == 0 && 0 < bill.maxRetries
  }

  // ----- the atomic machine -----

  datatype Step =
    | AddUser(user: UserId)
    | AddBill(bill: BillId, row: Bill)
    | AddCredit(reference: Ref, user: UserId, amount: nat)
    | Pay(bill: BillId, reference: Ref, fee: nat)
    | Webhook(event: Event)
    | CancelBill(bill: BillId, caller: UserId)
    | SchedulerTurn(bill: BillId, now: Time, fee: nat)

  function Apply(s: Store, st: Step): Store {
    match st
    case AddUser(u) => if u in s.users then s else s.(users := s.users[u := 0])
    case AddBill(b, row) => if NewBill(s, b, row) then s.(bills := s.bills[b := row]) else s
    case AddCredit(r, u, amount) =>
      if r in s.txns || u !in s.users then s
      else s.(txns := s.txns[r := Txn(Credit, u, None, amount, 0, TxnPending, 0)])
    case Pay(b, r, fee) => Payout(s, b, r, fee)
    case Webhook(e) => Deliver(s, e)
    case CancelBill(b, caller) => Cancel(s, b, caller)
    case SchedulerTurn(b, now, fee) =>
      if b in s.bills && s.bills[b].due <= now then Reevaluate(s, b, now, fee) else s
  }

  function Run(s: Store, steps: seq<Step>): Store
    decreases |steps|
  {
    if steps == [] then s else Run(Apply(s, steps[0]), steps[1..])
  }
}
