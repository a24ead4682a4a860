/** One tick of `_process_scheduled_bills`: a list of due bills, then one small transaction per bill. */
module Scheduler {
  import opened Decisions
  import opened Ledger
  import opened LedgerInvariant

  function DueBills(s: Store, now: Time): set<BillId> {
    set b | b in s.bills && s.bills[b].status == Scheduled && s.bills[b].due <= now
  }

  function ReevaluateAll(s: Store, ids: seq<BillId>, now: Time, fee: nat): Store
    decreases |ids|
  {
    if ids == [] then s else ReevaluateAll(Reevaluate(s, ids[0], now, fee), ids[1..], now, fee)
  }

  /** Scheduled, due, and covered by the owner's balance on its own. */
  predicate Releasable(s: Store, b: BillId, now: Time, fee: nat) {
    && b in s.bills && s.bills[b].status == Scheduled && s.bills[b].due <= now
    && s.bills[b].user in s.users && s.bills[b].amount + fee <= s.users[s.bills[b].user]
  }

  /** The tick as one statement: releasable bills become pending. */
  function Tick(s: Store, now: Time, fee: nat): Store {
    s.(bills := map b | b in s.bills ::
         if Releasable(s, b, now, fee) then s.bills[b].(status := Pending) else s.bills[b])
  }

  lemma ReevaluateReleases(s: Store, b: BillId, now: Time, fee: nat)
    requires b in s.bills ==> s.bills[b].due <= now
    ensures Reevaluate(s, b, now, fee)
            == if Releasable(s, b, now, fee) then s.(bills := s.bills[b := s.bills[b].(status := Pending)]) else s
  {
  }

  /** What a list of turns does, whatever its order and even with repetitions. */
  lemma {:induction false} ReevaluateAllReleases(s: Store, ids: seq<BillId>, now: Time, fee: nat)
    requires forall b :: b in ids && b in s.bills ==> s.bills[b].due <= now
    ensures ReevaluateAll(s, ids, now, fee)
            == s.(bills := map b | b in s.bills ::
                    if b in ids && Releasable(s, b, now, fee) then s.bills[b].(status := Pending) else s.bills[b])
    decreases |ids|
  {
    if ids == [] {
      assert s.bills == map b | b in s.bills :: s.bills[b];
    } else {
      var s' := Reevaluate(s, ids[0], now, fee);
      ReevaluateReleases(s, ids[0], now, fee);
      ReevaluateAllReleases(s', ids[1..], now, fee);
      assert forall b :: b in ids <==> b == ids[0] || b in ids[1..];
    }
  }

  /** A tick releases exactly the releasable bills, in whatever order it visits the due ones. */
  lemma TickInAnyOrder(s: Store, ids: seq<BillId>, now: Time, fee: nat)
    requires forall b :: b in ids <==> b in DueBills(s, now)
    ensures ReevaluateAll(s, ids, now, fee) == Tick(s, now, fee)
  {
    ReevaluateAllReleases(s, ids, now, fee);
  }

  /** A second tick at the same time and balances finds nothing left to do. */
  lemma TickTwice(s: Store, now: Time, fee: nat)
    ensures Tick(Tick(s, now, fee), now, fee) == Tick(s, now, fee)
  {
  }

  lemma ReleasedBillsHaveRetriesLeft(s: Store, b: BillId, now: Time, fee: nat)
    requires Inv(s) && Releasable(s, b, now, fee)
    ensures s.bills[b].retries < s.bills[b].maxRetries
    ensures !Releasable(Tick(s, now, fee), b, now, fee)
  {
  }

  /** The turns of a tick are steps of the atomic machine, so a tick keeps the ledger's invariant. */
  lemma {:induction false} TickKeepsInv(s: Store, ids: seq<BillId>, now: Time, fee: nat)
    requires Inv(s) && forall b :: b in ids && b in s.bills ==> s.bills[b].due <= now
    ensures Inv(ReevaluateAll(s, ids, now, fee))
    decreases |ids|
  {
    if ids != [] {
      var turn := SchedulerTurn(ids[0], now, fee);
      assert Apply(s, turn) == Reevaluate(s, ids[0], now, fee);
      StepKeepsInvIffSafe(s, turn);
      TickKeepsInv(Reevaluate(s, ids[0], now, fee), ids[1..], now, fee);
    }
  }
}
