/** Concurrent `execute_payout` workers over one database. Each worker takes the bill's row lock, then the
    user's, keeps its writes to itself across three awaits of the provider, and commits or rolls back. Between
    any two of its steps other workers, webhooks, cancellations and the scheduler may run. */
module PayoutWorkers {
  import opened Options
  import opened Provider
  import opened Ledger
  import opened LedgerInvariant
  import opened WebhookLaws

  type WorkerId = int

  /** Which of the three provider calls is being awaited. */
  datatype Call = ResolveAccount | CreateRecipient | InitiateTransfer

  /** `row` and `balance` are what the locking reads returned. */
  datatype Pc =
    | Start
    | BillLocked(row: Bill)
    | BothLocked(row: Bill, balance: int)
    | Awaiting(call: Call, row: Bill, balance: int, fee: nat)
    | ReadyToCommit(row: Bill, balance: int, fee: nat)
    | Raised
    | Finished(paid: bool)

  /** The session's uncommitted writes. */
  datatype Writes = Writes(bill: Option<Bill>, balance: Option<int>, debit: Option<Txn>)

  const NO_WRITES: Writes := Writes(None, None, None)

  datatype Worker = Worker(bill: BillId, reference: Ref, pc: Pc, writes: Writes)

  datatype Config = Config(store: Store, workers: map<WorkerId, Worker>,
                           billLocks: map<BillId, WorkerId>, userLocks: map<UserId, WorkerId>)

  const START: Config := Config(EMPTY, map[], map[], map[])

  datatype Move =
    | Spawn(worker: WorkerId, bill: BillId, reference: Ref)
    | Other(step: Step)
    | LockBill(worker: WorkerId)
    | LockUser(worker: WorkerId)
    | Check(worker: WorkerId, fee: nat)
    | Answer(worker: WorkerId, reply: Reply)
    | Commit(worker: WorkerId)
    | Rollback(worker: WorkerId)

  // ----- one worker -----

  /** The state checks, the balance check, and the buffered `processing` bill and debit. */
  function Checked(w: Worker, fee: nat): (w': Worker)
    requires w.pc.BothLocked?
    ensures w'.pc.Awaiting? ==> w'.writes.bill.Some? && w'.writes.debit.Some?
  {
    var row := w.pc.row;
    var reserved := Writes(Some(row.(status := Processing)), None, Some(DebitFor(w.bill, row, fee)));
    if !Payable(row.status) then w.(pc := Raised)
    else if w.pc.balance < row.amount + fee then
      w.(pc := Raised, writes := Writes(Some(row.(status := Pending)), None, None))
    else if !row.hasAccount then Refund(w.(writes := reserved))
    else w.(pc := Awaiting(ResolveAccount, row, w.pc.balance, fee), writes := reserved)
  }

  /** `_refund_on_failure` on the buffered rows, followed by the raise. The balance is not in the buffer yet. */
  function Refund(w: Worker): Worker
    requires w.writes.bill.Some? && w.writes.debit.Some?
  {
    w.(pc := Raised,
       writes := w.writes.(bill := Some(AfterFailure(w.writes.bill.value)),
                           debit := Some(w.writes.debit.value.(status := TxnFailed))))
  }

  /** Which errors of a call are caught and refunded; every other one escapes with the buffer as it is. */
  predicate Refunds(call: Call, reply: Reply) {
    match call
    case ResolveAccount => reply.InvalidAccount?
    case CreateRecipient => IsPaymentError(reply)
    case InitiateTransfer => IsPaymentError(reply)
  }

  function Answered(w: Worker, reply: Reply): (w': Worker)
    requires w.pc.Awaiting? && w.writes.bill.Some? && w.writes.debit.Some?
    ensures w'.pc.Awaiting? ==> w'.writes.bill.Some? && w'.writes.debit.Some?
  {
    var Awaiting(call, row, balance, fee) := w.pc;
    if reply.Granted? then
      match call
      case ResolveAccount => w.(pc := w.pc.(call := CreateRecipient))
      case CreateRecipient => w.(pc := w.pc.(call := InitiateTransfer))
      case InitiateTransfer =>
        w.(pc := ReadyToCommit(row, balance, fee),
           writes := w.writes.(balance := Some(balance - (row.amount + fee))))
    else if Refunds(call, reply) then Refund(w)
    else w.(pc := Raised)
  }

  /** The buffered rows take the place of the committed ones. */
  function Flush(s: Store, w: Worker): Store
    requires w.pc.ReadyToCommit?
  {
    s.(users := if w.writes.balance.Some? then s.users[w.pc.row.user := w.writes.balance.value] else s.users,
       bills := if w.writes.bill.Some? then s.bills[w.bill := w.writes.bill.value] else s.bills,
       txns := if w.writes.debit.Some? then s.txns[w.reference := w.writes.debit.value] else s.txns)
  }

  // ----- the machine -----

  predicate Unused(c: Config, r: Ref) {
    forall w :: w in c.workers ==> c.workers[w].reference != r
  }

  /** The rows a one-step transaction changes are not locked. */
  predicate WritesUnlocked(c: Config, s': Store) {
    && (forall b :: b in c.billLocks && b in c.store.bills ==> b in s'.bills && s'.bills[b] == c.store.bills[b])
    && (forall u :: u in c.userLocks && u in c.store.users ==> u in s'.users && s'.users[u] == c.store.users[u])
  }

  predicate Enabled(c: Config, mv: Move) {
    match mv
    case Spawn(w, b, r) => w !in c.workers && r !in c.store.txns && Unused(c, r)
    case Other(st) =>
      !st.Pay? && (st.AddCredit? ==> Unused(c, st.reference)) && WritesUnlocked(c, Apply(c.store, st))
    case LockBill(w) => w in c.workers && c.workers[w].pc.Start? && c.workers[w].bill !in c.billLocks
    case LockUser(w) => w in c.workers && c.workers[w].pc.BillLocked? && c.workers[w].pc.row.user !in c.userLocks
    case Check(w, _) => w in c.workers && c.workers[w].pc.BothLocked?
    case Answer(w, _) =>
      && w in c.workers && c.workers[w].pc.Awaiting?
      && c.workers[w].writes.bill.Some? && c.workers[w].writes.debit.Some?
    case Commit(w) => w in c.workers && c.workers[w].pc.ReadyToCommit?
    case Rollback(w) => w in c.workers && c.workers[w].pc.Raised?
  }

  function Put(c: Config, w: WorkerId, worker: Worker): Config {
    c.(workers := c.workers[w := worker])
  }

  function Without<K>(locks: map<K, WorkerId>, w: WorkerId): map<K, WorkerId> {
    map k | k in locks && locks[k] != w :: locks[k]
  }

  function Released(c: Config, w: WorkerId): Config {
    c.(billLocks := Without(c.billLocks, w), userLocks := Without(c.userLocks, w))
  }

  function Next(c: Config, mv: Move): Config
    requires Enabled(c, mv)
  {
    match mv
    case Spawn(w, b, r) => Put(c, w, Worker(b, r, Start, NO_WRITES))
    case Other(st) => c.(store := Apply(c.store, st))
    case LockBill(w) =>
      var me := c.workers[w];
      if me.bill in c.store.bills then
        Put(c, w, me.(pc := BillLocked(c.store.bills[me.bill]))).(billLocks := c.billLocks[me.bill := w])
      else Put(c, w, me.(pc := Raised))
    case LockUser(w) =>
      var me := c.workers[w];
      var row := me.pc.row;
      if row.user in c.store.users then
        Put(c, w, me.(pc := BothLocked(row, c.store.users[row.user]))).(userLocks := c.userLocks[row.user := w])
      else Put(c, w, me.(pc := Raised))
    case Check(w, fee) => Put(c, w, Checked(c.workers[w], fee))
    case Answer(w, reply) => Put(c, w, Answered(c.workers[w], reply))
    case Commit(w) =>
      var me := c.workers[w];
      Released(Put(c, w, me.(pc := Finished(true), writes := NO_WRITES)), w).(store := Flush(c.store, me))
    case Rollback(w) =>
      Released(Put(c, w, c.workers[w].(pc := Finished(false), writes := NO_WRITES)), w)
  }

  predicate ValidRun(c: Config, run: seq<Move>)
    decreases |run|
  {
    run == [] || (Enabled(c, run[0]) && ValidRun(Next(c, run[0]), run[1..]))
  }

  function After(c: Config, run: seq<Move>): Config
    requires ValidRun(c, run)
    decreases |run|
  {
    if run == [] then c else After(Next(c, run[0]), run[1..])
  }

  // ----- what the locks protect -----

  predicate HoldsBill(pc: Pc) {
    pc.BillLocked? || pc.BothLocked? || pc.Awaiting? || pc.ReadyToCommit?
  }

  predicate HoldsUser(pc: Pc) {
    pc.BothLocked? || pc.Awaiting? || pc.ReadyToCommit?
  }

  predicate LocksOk(c: Config) {
    && (forall b :: b in c.billLocks ==>
          && c.billLocks[b] in c.workers
          && c.workers[c.billLocks[b]].bill == b
          && (HoldsBill(c.workers[c.billLocks[b]].pc) || c.workers[c.billLocks[b]].pc.Raised?))
    && (forall u :: u in c.userLocks ==>
          && c.userLocks[u] in c.workers
          && (c.workers[c.userLocks[u]].pc.Raised?
              || (HoldsUser(c.workers[c.userLocks[u]].pc) && c.workers[c.userLocks[u]].pc.row.user == u)))
    && (forall w :: w in c.workers && HoldsBill(c.workers[w].pc) ==>
          c.workers[w].bill in c.billLocks && c.billLocks[c.workers[w].bill] == w)
    && (forall w :: w in c.workers && HoldsUser(c.workers[w].pc) ==>
          c.workers[w].pc.row.user in c.userLocks && c.userLocks[c.workers[w].pc.row.user] == w)
  }

  /** A worker's snapshot is still the committed row, and its buffer holds what its program counter says. */
  predicate WorkerOk(s: Store, w: Worker) {
    && (HoldsBill(w.pc) ==> w.bill in s.bills && s.bills[w.bill] == w.pc.row)
    && (HoldsUser(w.pc) ==> w.pc.row.user in s.users && s.users[w.pc.row.user] == w.pc.balance)
    && (!w.pc.Finished? ==> w.reference !in s.txns)
    && (w.pc.Awaiting? || w.pc.ReadyToCommit? ==>
          && Payable(w.pc.row.status) && w.pc.row.hasAccount && w.pc.row.amount + w.pc.fee <= w.pc.balance
          && w.writes.bill == Some(w.pc.row.(status := Processing))
          && w.writes.debit == Some(DebitFor(w.bill, w.pc.row, w.pc.fee)))
    && (if w.pc.ReadyToCommit? then w.writes.balance == Some(w.pc.balance - (w.pc.row.amount + w.pc.fee))
        else w.writes.balance == None)
  }

  ghost predicate Sound(c: Config) {
    && Linked(c.store)
    && LocksOk(c)
    && (forall w :: w in c.workers ==> WorkerOk(c.store, c.workers[w]))
    && (forall w1, w2 :: w1 in c.workers && w2 in c.workers && w1 != w2
                         ==> c.workers[w1].reference != c.workers[w2].reference)
  }

  lemma SoundAtStart()
    ensures Sound(START)
  {
  }

  lemma SpawnKeepsSound(c: Config, w: WorkerId, b: BillId, r: Ref)
    requires Sound(c) && Enabled(c, Spawn(w, b, r))
    ensures Sound(Next(c, Spawn(w, b, r)))
  {
  }

  lemma OtherKeepsSound(c: Config, st: Step)
    requires Sound(c) && Enabled(c, Other(st))
    ensures Sound(Next(c, Other(st)))
  {
    LinkedIsKept(c.store, st);
    var s' := Apply(c.store, st);
    forall w | w in c.workers ensures WorkerOk(s', c.workers[w]) {
      var me := c.workers[w];
      assert WorkerOk(c.store, me);
      if me.reference !in c.store.txns {
        NewReferences(c.store, st, me.reference);
      }
    }
  }

  /** Only new credit rows and payouts bring new references. */
  lemma NewReferences(s: Store, st: Step, r: Ref)
    requires r !in s.txns && !((st.AddCredit? || st.Pay?) && st.reference == r)
    ensures r !in Apply(s, st).txns
  {
  }

  lemma LockBillKeepsSound(c: Config, w: WorkerId)
    requires Sound(c) && Enabled(c, LockBill(w))
    ensures Sound(Next(c, LockBill(w)))
  {
    var c' := Next(c, LockBill(w));
    assert WorkerOk(c.store, c.workers[w]);
    assert LocksOk(c') by {
      if c.workers[w].bill in c.store.bills {
        BillLockKeepsLocksOk(c, w, c'.workers[w]);
      }
    }
    forall w' | w' in c'.workers ensures WorkerOk(c'.store, c'.workers[w']) {
      if w' != w {
        assert WorkerOk(c.store, c.workers[w']);
      }
    }
  }

  lemma BillLockKeepsLocksOk(c: Config, w: WorkerId, me': Worker)
    requires LocksOk(c) && w in c.workers && c.workers[w].pc.Start? && c.workers[w].bill !in c.billLocks
    requires me'.pc.BillLocked? && me'.bill == c.workers[w].bill
    ensures LocksOk(Put(c, w, me').(billLocks := c.billLocks[me'.bill := w]))
  {
  }

  lemma LockUserKeepsSound(c: Config, w: WorkerId)
    requires Sound(c) && Enabled(c, LockUser(w))
    ensures Sound(Next(c, LockUser(w)))
  {
  }

  /** A worker that moves on under its locks, or raises, only has to keep its own promises. */
  lemma PrivateMoveKeepsSound(c: Config, w: WorkerId, me': Worker)
    requires Sound(c) && w in c.workers && WorkerOk(c.store, me')
    requires HoldsUser(c.workers[w].pc) && !me'.pc.Finished?
    requires me'.bill == c.workers[w].bill && me'.reference == c.workers[w].reference
    requires me'.pc.Raised? || (HoldsUser(me'.pc) && me'.pc.row == c.workers[w].pc.row)
    ensures Sound(Put(c, w, me'))
  {
  }

  lemma CheckKeepsSound(c: Config, w: WorkerId, fee: nat)
    requires Sound(c) && Enabled(c, Check(w, fee))
    ensures Sound(Next(c, Check(w, fee)))
  {
    PrivateMoveKeepsSound(c, w, Checked(c.workers[w], fee));
  }

  lemma AnswerKeepsSound(c: Config, w: WorkerId, reply: Reply)
    requires Sound(c) && Enabled(c, Answer(w, reply))
    ensures Sound(Next(c, Answer(w, reply)))
  {
    PrivateMoveKeepsSound(c, w, Answered(c.workers[w], reply));
  }

  lemma ReleaseKeepsLocks(c: Config, w: WorkerId, me': Worker)
    requires LocksOk(c) && me'.pc.Finished?
    ensures LocksOk(Released(Put(c, w, me'), w))
  {
  }

  lemma RollbackKeepsSound(c: Config, w: WorkerId)
    requires Sound(c) && Enabled(c, Rollback(w))
    ensures Sound(Next(c, Rollback(w)))
  {
  }

  /** What a worker commits is the single atomic payout step, applied to the store as it is at the commit. */
  lemma CommitIsPayout(c: Config, w: WorkerId)
    requires Sound(c) && Enabled(c, Commit(w))
    ensures CanPay(c.store, c.workers[w].bill, c.workers[w].reference, c.workers[w].pc.fee)
    ensures Flush(c.store, c.workers[w])
            == Payout(c.store, c.workers[w].bill, c.workers[w].reference, c.workers[w].pc.fee)
  {
  }

  lemma CommitKeepsSound(c: Config, w: WorkerId)
    requires Sound(c) && Enabled(c, Commit(w))
    ensures Sound(Next(c, Commit(w)))
  {
    var me, s' := c.workers[w], Flush(c.store, c.workers[w]);
    var c' := Next(c, Commit(w));
    assert LocksOk(c') by {
      ReleaseKeepsLocks(c, w, me.(pc := Finished(true), writes := NO_WRITES));
    }
    assert Linked(s') by {
      CommitIsPayout(c, w);
      LinkedIsKept(c.store, Pay(me.bill, me.reference, me.pc.fee));
    }
    CommitLeavesOthersAlone(c, w);
    assert forall w' :: w' in c'.workers ==> WorkerOk(s', c'.workers[w']);
  }

  lemma CommitLeavesOthersAlone(c: Config, w: WorkerId)
    requires Sound(c) && Enabled(c, Commit(w))
    ensures forall w' :: w' in c.workers && w' != w ==> WorkerOk(Flush(c.store, c.workers[w]), c.workers[w'])
  {
  }

  lemma NextKeepsSound(c: Config, mv: Move)
    requires Sound(c) && Enabled(c, mv)
    ensures Sound(Next(c, mv))
  {
    match mv {
      case Spawn(w, b, r) => SpawnKeepsSound(c, w, b, r);
      case Other(st) => OtherKeepsSound(c, st);
      case LockBill(w) => LockBillKeepsSound(c, w);
      case LockUser(w) => LockUserKeepsSound(c, w);
      case Check(w, fee) => CheckKeepsSound(c, w, fee);
      case Answer(w, reply) => AnswerKeepsSound(c, w, reply);
      case Commit(w) => CommitKeepsSound(c, w);
      case Rollback(w) => RollbackKeepsSound(c, w);
    }
  }

  // ----- refinement -----

  /** The atomic steps a move stands for: a payout happens at its worker's commit. */
  function Atomic(c: Config, mv: Move): seq<Step>
    requires Enabled(c, mv)
  {
    match mv
    case Other(st) => [st]
    case Commit(w) => [Pay(c.workers[w].bill, c.workers[w].reference, c.workers[w].pc.fee)]
    case _ => []
  }

  function AtomicRun(c: Config, run: seq<Move>): seq<Step>
    requires ValidRun(c, run)
    decreases |run|
  {
    if run == [] then [] else Atomic(c, run[0]) + AtomicRun(Next(c, run[0]), run[1..])
  }

  lemma MoveRefines(c: Config, mv: Move)
    requires Sound(c) && Enabled(c, mv)
    ensures Next(c, mv).store == Run(c.store, Atomic(c, mv))
  {
  }

  lemma {:induction false} RunOfSum(s: Store, first: seq<Step>, second: seq<Step>)
    ensures Run(s, first + second) == Run(Run(s, first), second)
    decreases |first|
  {
    if first == [] {
      assert first + second == second;
    } else {
      assert (first + second)[1..] == first[1..] + second;
      RunOfSum(Apply(s, first[0]), first[1..], second);
    }
  }

  /** Refinement: however the workers are interleaved with each other and with everything else, the committed
      store is the one the atomic machine reaches with one payout step per commit, in commit order. */
  lemma {:induction false} InterleavingsRefineTheLedger(c: Config, run: seq<Move>)
    requires Sound(c) && ValidRun(c, run)
    ensures Sound(After(c, run))
    ensures After(c, run).store == Run(c.store, AtomicRun(c, run))
    decreases |run|
  {
    if run != [] {
      var c' := Next(c, run[0]);
      NextKeepsSound(c, run[0]);
      MoveRefines(c, run[0]);
      InterleavingsRefineTheLedger(c', run[1..]);
      RunOfSum(c.store, Atomic(c, run[0]), AtomicRun(c', run[1..]));
    }
  }

  /** The assumption about references, read off the moves of a run: workers draw theirs from `payouts`, and
      charges come with others and without negative amounts. */
  predicate WellAddressedMoves(run: seq<Move>, payouts: set<Ref>) {
    forall mv :: mv in run ==>
      && (mv.Spawn? ==> mv.reference in payouts)
      && (mv.Other? ==> WellAddressed([mv.step], payouts))
  }

  lemma {:induction false} AtomicRunIsWellAddressed(c: Config, run: seq<Move>, payouts: set<Ref>)
    requires ValidRun(c, run) && WellAddressedMoves(run, payouts)
    requires forall w :: w in c.workers ==> c.workers[w].reference in payouts
    ensures WellAddressed(AtomicRun(c, run), payouts)
    decreases |run|
  {
    if run != [] {
      var mv, c' := run[0], Next(c, run[0]);
      assert mv in run;
      assert forall mv' :: mv' in run[1..] ==> mv' in run;
      AtomicRunIsWellAddressed(c', run[1..], payouts);
      assert WellAddressed(Atomic(c, mv), payouts) by {
        if mv.Other? {
          assert mv.step in [mv.step];
        }
      }
    }
  }

  /** So every invariant of the ledger holds of the committed store in every interleaving that starts empty:
      money is conserved, no balance is negative, and no bill is charged twice. */
  lemma SafetyUnderInterleaving(run: seq<Move>, payouts: set<Ref>)
    requires ValidRun(START, run) && WellAddressedMoves(run, payouts)
    ensures Inv(After(START, run).store)
  {
    SoundAtStart();
    InvAtStart();
    InterleavingsRefineTheLedger(START, run);
    AtomicRunIsWellAddressed(START, run, payouts);
    SeparateReferencesAreSafe(EMPTY, AtomicRun(START, run), payouts);
    InvOverRuns(EMPTY, AtomicRun(START, run));
  }

  /** The subtraction after the third await cannot overdraw: the balance in a buffer is never negative, and
      only a worker that is about to commit has one. */
  lemma BufferedBalance(c: Config, w: WorkerId)
    requires Sound(c) && w in c.workers && c.workers[w].writes.balance.Some?
    ensures c.workers[w].pc.ReadyToCommit? && 0 <= c.workers[w].writes.balance.value
  {
  }

  function PayoutsUnder(steps: seq<Step>, r: Ref): nat {
    if steps == [] then 0
    else (if steps[0].Pay? && steps[0].reference == r then 1 else 0) + PayoutsUnder(steps[1..], r)
  }

  lemma {:induction false} PayoutsUnderSum(first: seq<Step>, second: seq<Step>, r: Ref)
    ensures PayoutsUnder(first + second, r) == PayoutsUnder(first, r) + PayoutsUnder(second, r)
  {
    if first == [] {
      assert first + second == second;
    } else {
      assert (first + second)[1..] == first[1..] + second;
      PayoutsUnderSum(first[1..], second, r);
    }
  }

  predicate HasPaid(c: Config, w: WorkerId)
    requires w in c.workers
  {
    c.workers[w].pc == Finished(true)
  }

  /** A worker keeps the bill and the reference it was started with. */
  lemma WorkersKeepTheirTask(c: Config, mv: Move, w: WorkerId)
    requires Enabled(c, mv) && (w in c.workers || (mv.Spawn? && mv.worker == w))
    ensures w in Next(c, mv).workers
    ensures var me := Next(c, mv).workers[w];
            if w in c.workers then me.bill == c.workers[w].bill && me.reference == c.workers[w].reference
            else me.bill == mv.bill && me.reference == mv.reference && me.pc == Start
  {
  }

  lemma PayoutsOfOneMove(c: Config, mv: Move, w: WorkerId)
    requires Sound(c) && Enabled(c, mv) && w in c.workers
    ensures w in Next(c, mv).workers && Next(c, mv).workers[w].reference == c.workers[w].reference
    ensures PayoutsUnder(Atomic(c, mv), c.workers[w].reference) + (if HasPaid(c, w) then 1 else 0)
            == if HasPaid(Next(c, mv), w) then 1 else 0
  {
  }

  /** An attempt that raises leaves no trace: over a run, the atomic machine sees one payout under a worker's
      reference if that worker commits, and none otherwise. */
  lemma {:induction false} OnlyCommittedAttemptsCount(c: Config, run: seq<Move>, w: WorkerId)
    requires Sound(c) && ValidRun(c, run) && w in c.workers
    ensures w in After(c, run).workers
    ensures PayoutsUnder(AtomicRun(c, run), c.workers[w].reference) + (if HasPaid(c, w) then 1 else 0)
            == if HasPaid(After(c, run), w) then 1 else 0
    decreases |run|
  {
    if run != [] {
      var c' := Next(c, run[0]);
      NextKeepsSound(c, run[0]);
      PayoutsOfOneMove(c, run[0], w);
      OnlyCommittedAttemptsCount(c', run[1..], w);
      PayoutsUnderSum(Atomic(c, run[0]), AtomicRun(c', run[1..]), c.workers[w].reference);
    }
  }

  // ----- progress -----

  predicate MovesAWorker(mv: Move) {
    !mv.Spawn? && !mv.Other?
  }

  /** Locks are taken bill first, user second, so a worker that waits for a bill waits for one that waits at
      most for a user, and whoever holds a user can move: there is no deadlock. */
  lemma NoDeadlock(c: Config, w: WorkerId) returns (mv: Move)
    requires Sound(c) && w in c.workers && !c.workers[w].pc.Finished?
    ensures MovesAWorker(mv) && Enabled(c, mv)
  {
    assert WorkerOk(c.store, c.workers[w]);
    match c.workers[w].pc {
      case Start =>
        if c.workers[w].bill in c.billLocks {
          mv := BillHolderOrItsUserCanMove(c, c.billLocks[c.workers[w].bill]);
        } else {
          mv := LockBill(w);
        }
      case _ => mv := BillHolderOrItsUserCanMove(c, w);
    }
  }

  lemma BillHolderOrItsUserCanMove(c: Config, w: WorkerId) returns (mv: Move)
    requires Sound(c) && w in c.workers && (HoldsBill(c.workers[w].pc) || c.workers[w].pc.Raised?)
    ensures MovesAWorker(mv) && Enabled(c, mv)
  {
    if c.workers[w].pc.BillLocked? {
      var u := c.workers[w].pc.row.user;
      if u in c.userLocks {
        mv := UserHolderCanMove(c, c.userLocks[u]);
      } else {
        mv := LockUser(w);
      }
    } else {
      mv := UserHolderCanMove(c, w);
    }
  }

  lemma UserHolderCanMove(c: Config, w: WorkerId) returns (mv: Move)
    requires Sound(c) && w in c.workers && (HoldsUser(c.workers[w].pc) || c.workers[w].pc.Raised?)
    ensures MovesAWorker(mv) && Enabled(c, mv)
  {
    assert WorkerOk(c.store, c.workers[w]);
    match c.workers[w].pc {
      case BothLocked(_, _) => mv := Check(w, 0);
      case Awaiting(_, _, _, _) => mv := Answer(w, Granted);
      case ReadyToCommit(_, _, _) => mv := Commit(w);
      case _ => mv := Rollback(w);
    }
  }

  /** Locks hold back nothing but their own rows: the provider may answer anything, the fee may be anything, new
      attempts may always start, and a transaction runs in between unless it changes a locked bill or user. */
  lemma OnlyLockedRowsWait(c: Config, st: Step)
    requires Sound(c)
    ensures forall w, fee :: w in c.workers && c.workers[w].pc.BothLocked? ==> Enabled(c, Check(w, fee))
    ensures forall w, reply :: w in c.workers && c.workers[w].pc.Awaiting? ==> Enabled(c, Answer(w, reply))
    ensures forall w, b, r :: w !in c.workers && r !in c.store.txns && Unused(c, r) ==> Enabled(c, Spawn(w, b, r))
    ensures st.AddUser? || st.AddBill? ==> Enabled(c, Other(st))
    ensures st.AddCredit? ==> (Enabled(c, Other(st)) <==> Unused(c, st.reference))
    ensures (st.CancelBill? || st.SchedulerTurn?) && st.bill !in c.billLocks ==> Enabled(c, Other(st))
    ensures st.Webhook? && (st.event.reference in c.store.txns ==>
                              var t := c.store.txns[st.event.reference];
                              t.user !in c.userLocks && (t.bill.Some? ==> t.bill.value !in c.billLocks))
            ==> Enabled(c, Other(st))
  {
  }

  /** And what does run in between leaves every locked row as its holder has read it. */
  lemma HeldRowsStay(c: Config, st: Step, w: WorkerId)
    requires Sound(c) && Enabled(c, Other(st)) && w in c.workers
    ensures HoldsBill(c.workers[w].pc) ==>
              c.workers[w].bill in Apply(c.store, st).bills
              && Apply(c.store, st).bills[c.workers[w].bill] == c.workers[w].pc.row
    ensures HoldsUser(c.workers[w].pc) ==>
              c.workers[w].pc.row.user in Apply(c.store, st).users
              && Apply(c.store, st).users[c.workers[w].pc.row.user] == c.workers[w].pc.balance
  {
  }

  function StepsLeft(pc: Pc): nat {
    match pc
    case Start => 8
    case BillLocked(_) => 7
    case BothLocked(_, _) => 6
    case Awaiting(call, _, _, _) =>
      (match call case ResolveAccount => 5 case CreateRecipient => 4 case InitiateTransfer => 3)
    case ReadyToCommit(_, _, _) => 2
    case Raised => 1
    case Finished(_) => 0
  }

  function MovesOf(run: seq<Move>, w: WorkerId): nat {
    if run == [] then 0
    else (if MovesAWorker(run[0]) && run[0].worker == w then 1 else 0) + MovesOf(run[1..], w)
  }

  lemma MoveShortensAttempt(c: Config, mv: Move, w: WorkerId)
    requires Enabled(c, mv) && w in c.workers
    ensures w in Next(c, mv).workers
    ensures MovesOf([mv], w) + StepsLeft(Next(c, mv).workers[w].pc) <= StepsLeft(c.workers[w].pc)
  {
  }

  /** An attempt is over after at most eight moves of its worker, whatever the provider answers. */
  lemma {:induction false} AttemptsAreShort(c: Config, run: seq<Move>, w: WorkerId)
    requires ValidRun(c, run) && w in c.workers
    ensures w in After(c, run).workers
    ensures MovesOf(run, w) + StepsLeft(After(c, run).workers[w].pc) <= StepsLeft(c.workers[w].pc) <= 8
    decreases |run|
  {
    if run != [] {
      MoveShortensAttempt(c, run[0], w);
      assert MovesOf(run, w) == MovesOf([run[0]], w) + MovesOf(run[1..], w);
      AttemptsAreShort(Next(c, run[0]), run[1..], w);
    }
  }

  // ----- repeated webhooks -----

  /** The run without the deliveries of events that were delivered before. */
  function WithoutRepeats(run: seq<Move>, delivered: set<Ledger.Event>): seq<Move> {
    if run == [] then []
    else if run[0].Other? && run[0].step.Webhook? then
      var e := run[0].step.event;
      if e in delivered then WithoutRepeats(run[1..], delivered)
      else [run[0]] + WithoutRepeats(run[1..], delivered + {e})
    else [run[0]] + WithoutRepeats(run[1..], delivered)
  }

  function DeliveriesOf(run: seq<Move>, e: Ledger.Event): nat {
    if run == [] then 0 else (if run[0] == Other(Webhook(e)) then 1 else 0) + DeliveriesOf(run[1..], e)
  }

  /** The moves of a run that are not webhook deliveries. */
  function Undelivered(run: seq<Move>): seq<Move> {
    if run == [] then []
    else (if run[0].Other? && run[0].step.Webhook? then [] else [run[0]]) + Undelivered(run[1..])
  }

  /** What is dropped is every delivery of an event but the first, and nothing else. */
  lemma {:induction false} RepeatsAreGone(run: seq<Move>, delivered: set<Ledger.Event>, e: Ledger.Event)
    ensures DeliveriesOf(WithoutRepeats(run, delivered), e)
            == if e in delivered || DeliveriesOf(run, e) == 0 then 0 else 1
    ensures Undelivered(WithoutRepeats(run, delivered)) == Undelivered(run)
  {
    if run != [] {
      var rest := run[1..];
      if run[0].Other? && run[0].step.Webhook? {
        var e' := run[0].step.event;
        if e' in delivered {
          RepeatsAreGone(rest, delivered, e);
        } else {
          RepeatsAreGone(rest, delivered + {e'}, e);
          assert ([run[0]] + WithoutRepeats(rest, delivered + {e'}))[1..] == WithoutRepeats(rest, delivered + {e'});
        }
      } else {
        RepeatsAreGone(rest, delivered, e);
        assert ([run[0]] + WithoutRepeats(rest, delivered))[1..] == WithoutRepeats(rest, delivered);
      }
    }
  }

  lemma InertStaysInertUnder(c: Config, mv: Move, e: Ledger.Event)
    requires Sound(c) && Enabled(c, mv) && Inert(c.store, e)
    ensures Inert(Next(c, mv).store, e)
  {
    if mv.Other? {
      InertStaysInert(c.store, mv.step, e);
    } else if mv.Commit? {
      CommitIsPayout(c, mv.worker);
    }
  }

  /** Exactly once: dropping every repeated delivery from an interleaved run leaves a run that ends in the very
      same configuration, also for charges that return before the commit and leave no dedup row. */
  lemma {:induction false} RepeatsChangeNothing(c: Config, run: seq<Move>, delivered: set<Ledger.Event>)
    requires Sound(c) && ValidRun(c, run)
    requires forall e :: e in delivered ==> Inert(c.store, e)
    ensures ValidRun(c, WithoutRepeats(run, delivered))
    ensures After(c, WithoutRepeats(run, delivered)) == After(c, run)
    decreases |run|
  {
    if run != [] {
      var mv, c' := run[0], Next(c, run[0]);
      NextKeepsSound(c, mv);
      forall e | e in delivered ensures Inert(c'.store, e) {
        InertStaysInertUnder(c, mv, e);
      }
      if mv.Other? && mv.step.Webhook? {
        var e := mv.step.event;
        if e in delivered {
          InertIffNoChange(c.store, e);
          assert c' == c;
          RepeatsChangeNothing(c', run[1..], delivered);
        } else {
          DeliveredIsInert(c.store, e);
          RepeatsChangeNothing(c', run[1..], delivered + {e});
          AfterFirst(c, mv, WithoutRepeats(run[1..], delivered + {e}));
        }
      } else {
        RepeatsChangeNothing(c', run[1..], delivered);
        AfterFirst(c, mv, WithoutRepeats(run[1..], delivered));
      }
    }
  }

  lemma AfterFirst(c: Config, mv: Move, rest: seq<Move>)
    requires Enabled(c, mv) && ValidRun(Next(c, mv), rest)
    ensures ValidRun(c, [mv] + rest)
    ensures After(c, [mv] + rest) == After(Next(c, mv), rest)
  {
  }
}
