/** The access-token manager of the Nomba client as coroutines share it: double-checked locking around issue
    and refresh, and one forced invalidation and retry after a 401 or 403. Coroutines interleave only between
    the steps below, each of which ends at an await. Time is in microseconds. */
module NombaTokens {
  import opened Options

  type Time = int
  type CoroutineId = int

  const TOKEN_REFRESH_BUFFER: Time := 300_000_000

  datatype Tokens = Tokens(access: Option<string>, refresh: Option<string>, expiresAt: Option<Time>)

  const NO_TOKENS: Tokens := Tokens(None, None, None)

  predicate Fresh(t: Tokens, now: Time) {
    t.access.Some? && t.expiresAt.Some? && now < t.expiresAt.value - TOKEN_REFRESH_BUFFER
  }

  /** The provider's answer to an issue or refresh call. `access` is `None` for a JSON null; `refresh` is `None`
      when the key is absent and `Some(None)` for a null. `Malformed` stands for any other exception while the
      answer is read, such as a missing access token. */
  datatype TokenReply =
    | TransportError
    | Rejected
    | Malformed
    | Granted(access: Option<string>, refresh: Option<Option<string>>, expiresAt: Time)

  datatype SendReply = SendTransportError | NotJson | Status(code: nat)

  predicate Unauthorized(r: SendReply) {
    r.Status? && (r.code == 401 || r.code == 403)
  }

  predicate Succeeded(r: SendReply) {
    r.Status? && r.code < 400
  }

  function Issued(r: TokenReply): Tokens
    requires r.Granted?
  {
    Tokens(r.access, if r.refresh.Some? then r.refresh.value else None, Some(r.expiresAt))
  }

  function Refreshed(t: Tokens, r: TokenReply): Tokens
    requires r.Granted?
  {
    Tokens(r.access, if r.refresh.Some? then r.refresh.value else t.refresh, Some(r.expiresAt))
  }

  /** `if not self._refresh_token`: missing or empty. */
  predicate HasRefresh(t: Tokens) {
    t.refresh.Some? && t.refresh.value != ""
  }

  // ----- one request -----

  /** Where a request is: before `_ensure_token`; waiting for the lock; holding it, about to check again;
      awaiting the refresh or issue call, still holding it; awaiting the answer to its own call; waiting for the
      lock to invalidate the token; holding it for that; done. */
  datatype Pc =
    | Begin | AwaitLock | Recheck | Refreshing | Issuing
    | Sending(token: Option<string>)
    | AwaitInvalidate | Invalidating
    | Ended(ok: bool)

  datatype Request = Request(pc: Pc, retried: bool, sends: nat)

  /** History: successful issue and refresh calls; times a fresh token went stale by the clock; invalidations;
      tokens that were not fresh when they arrived; grants that carried a null token. */
  datatype Counts = Counts(acquired: nat, expired: nat, invalidated: nat, staleOnArrival: nat, nullTokens: nat)

  datatype Sys = Sys(tokens: Tokens, now: Time, lock: Option<CoroutineId>,
                     requests: map<CoroutineId, Request>, counts: Counts)

  function StartAt(now: Time): Sys {
    Sys(NO_TOKENS, now, None, map[], Counts(0, 0, 0, 0, 0))
  }

  datatype Step =
    | Arrive(id: CoroutineId)
    | Enter(id: CoroutineId)
    | Acquire(id: CoroutineId)
    | CheckAgain(id: CoroutineId)
    | RefreshAnswer(id: CoroutineId, reply: TokenReply)
    | IssueAnswer(id: CoroutineId, reply: TokenReply)
    | SendAnswer(id: CoroutineId, sent: SendReply)
    | Invalidate(id: CoroutineId)
    | Tick(elapsed: nat)

  predicate WaitsForLock(pc: Pc) {
    pc.AwaitLock? || pc.AwaitInvalidate?
  }

  predicate HoldsLock(pc: Pc) {
    pc.Recheck? || pc.Refreshing? || pc.Issuing? || pc.Invalidating?
  }

  predicate InFlight(pc: Pc) {
    pc.Refreshing? || pc.Issuing?
  }

  predicate Enabled(s: Sys, st: Step) {
    match st
    case Arrive(id) => id !in s.requests
    case Enter(id) => id in s.requests && s.requests[id].pc.Begin?
    case Acquire(id) => id in s.requests && WaitsForLock(s.requests[id].pc) && s.lock == None
    case CheckAgain(id) => id in s.requests && s.requests[id].pc.Recheck?
    case RefreshAnswer(id, _) => id in s.requests && s.requests[id].pc.Refreshing?
    case IssueAnswer(id, _) => id in s.requests && s.requests[id].pc.Issuing?
    case SendAnswer(id, _) => id in s.requests && s.requests[id].pc.Sending?
    case Invalidate(id) => id in s.requests && s.requests[id].pc.Invalidating?
    case Tick(_) => true
  }

  function GoTo(s: Sys, id: CoroutineId, pc: Pc): Sys
    requires id in s.requests
  {
    s.(requests := s.requests[id := s.requests[id].(pc := pc)])
  }

  /** `_ensure_token` returns and the request goes out with what it returned. */
  function Send(s: Sys, id: CoroutineId, token: Option<string>): Sys
    requires id in s.requests
  {
    var me := s.requests[id];
    s.(requests := s.requests[id := me.(pc := Sending(token), sends := me.sends + 1)])
  }

  /** The three token fields are written, the lock is released, and the call goes out. */
  function Accept(s: Sys, id: CoroutineId, tokens: Tokens): Sys
    requires id in s.requests
  {
    var n := s.counts;
    Send(s.(tokens := tokens, lock := None,
            counts := n.(acquired := n.acquired + 1,
                         staleOnArrival := n.staleOnArrival + (if Fresh(tokens, s.now) then 0 else 1),
                         nullTokens := n.nullTokens + (if tokens.access == None then 1 else 0))),
         id, tokens.access)
  }

  function Fail(s: Sys, id: CoroutineId): Sys
    requires id in s.requests
  {
    GoTo(s.(lock := None), id, Ended(false))
  }

  function Next(s: Sys, st: Step): Sys
    requires Enabled(s, st)
  {
    match st
    case Arrive(id) => s.(requests := s.requests[id := Request(Begin, false, 0)])
    case Enter(id) => if Fresh(s.tokens, s.now) then Send(s, id, s.tokens.access) else GoTo(s, id, AwaitLock)
    case Acquire(id) =>
      GoTo(s.(lock := Some(id)), id, if s.requests[id].pc.AwaitLock? then Recheck else Invalidating)
    case CheckAgain(id) =>
      if Fresh(s.tokens, s.now) then Send(s.(lock := None), id, s.tokens.access)
      else if s.tokens.access == None || !HasRefresh(s.tokens) then GoTo(s, id, Issuing)
      else GoTo(s, id, Refreshing)
    case RefreshAnswer(id, reply) =>
      (match reply
       case Granted(_, _, _) => Accept(s, id, Refreshed(s.tokens, reply))
       case Rejected => GoTo(s, id, Issuing)
       case _ => Fail(s, id))
    case IssueAnswer(id, reply) => if reply.Granted? then Accept(s, id, Issued(reply)) else Fail(s, id)
    case SendAnswer(id, sent) =>
      if Unauthorized(sent) && !s.requests[id].retried then GoTo(s, id, AwaitInvalidate)
      else GoTo(s, id, Ended(Succeeded(sent)))
    case Invalidate(id) =>
      var s' := s.(tokens := s.tokens.(access := None), lock := None,
                   counts := s.counts.(invalidated := s.counts.invalidated + 1));
      s'.(requests := s.requests[id := s.requests[id].(pc := Begin, retried := true)])
    case Tick(elapsed) =>
      var later := s.now + elapsed;
      s.(now := later,
         counts := s.counts.(expired := s.counts.expired
                                        + (if Fresh(s.tokens, s.now) && !Fresh(s.tokens, later) then 1 else 0)))
  }

  predicate ValidRun(s: Sys, run: seq<Step>)
    decreases |run|
  {
    run == [] || (Enabled(s, run[0]) && ValidRun(Next(s, run[0]), run[1..]))
  }

  function After(s: Sys, run: seq<Step>): Sys
    requires ValidRun(s, run)
    decreases |run|
  {
    if run == [] then s else After(Next(s, run[0]), run[1..])
  }

  // ----- invariant -----

  predicate RequestOk(s: Sys, id: CoroutineId)
    requires id in s.requests
  {
    var me := s.requests[id];
    && (HoldsLock(me.pc) <==> s.lock == Some(id))
    && (InFlight(me.pc) ==> !Fresh(s.tokens, s.now))
    && (me.pc.Refreshing? ==> s.tokens.access.Some? && s.tokens.refresh.Some? && s.tokens.refresh.value != "")
    && (me.pc.Sending? && me.pc.token == None ==> 0 < s.counts.nullTokens)
    && (me.pc.AwaitInvalidate? || me.pc.Invalidating? ==> !me.retried)
    && (match me.pc
        case Ended(_) => me.sends <= 2
        case Sending(_) => me.sends == if me.retried then 2 else 1
        case AwaitInvalidate => me.sends == 1
        case Invalidating => me.sends == 1
        case _ => me.sends == if me.retried then 1 else 0)
  }

  predicate Sound(s: Sys) {
    && (s.lock.Some? ==> s.lock.value in s.requests)
    && (forall id :: id in s.requests ==> RequestOk(s, id))
    && s.counts.acquired + (if Fresh(s.tokens, s.now) then 0 else 1)
       <= 1 + s.counts.expired + s.counts.invalidated + s.counts.staleOnArrival
  }

  lemma StepKeepsRequestsOk(s: Sys, st: Step)
    requires Sound(s) && Enabled(s, st)
    ensures forall id :: id in Next(s, st).requests ==> RequestOk(Next(s, st), id)
  {
    var s' := Next(s, st);
    forall id | id in s'.requests ensures RequestOk(s', id) {
      if id in s.requests {
        assert RequestOk(s, id);
      }
      if !st.Tick? && !st.Arrive? {
        assert RequestOk(s, st.id);
      }
    }
  }

  lemma StepKeepsSound(s: Sys, st: Step)
    requires Sound(s) && Enabled(s, st)
    ensures Sound(Next(s, st))
  {
    StepKeepsRequestsOk(s, st);
    if !st.Tick? && !st.Arrive? {
      assert RequestOk(s, st.id);
    }
  }

  lemma {:induction false} SoundAlways(s: Sys, run: seq<Step>)
    requires Sound(s) && ValidRun(s, run)
    ensures Sound(After(s, run))
    decreases |run|
  {
    if run != [] {
      StepKeepsSound(s, run[0]);
      SoundAlways(Next(s, run[0]), run[1..]);
    }
  }

  // ----- safety -----

  /** At most one issue or refresh call is in flight. */
  lemma OneCallInFlight(s: Sys, id1: CoroutineId, id2: CoroutineId)
    requires Sound(s) && id1 in s.requests && id2 in s.requests
    requires InFlight(s.requests[id1].pc) && InFlight(s.requests[id2].pc)
    ensures id1 == id2
  {
  }

  /** The token fields are written only by the coroutine that holds the lock. */
  lemma OnlyTheLockHolderWrites(s: Sys, st: Step)
    requires Sound(s) && Enabled(s, st) && Next(s, st).tokens != s.tokens
    ensures !st.Tick? && s.lock == Some(st.id)
  {
  }

  /** `_ensure_token` returns None exactly when the grant it has just accepted carried a null token. */
  lemma EnsureTokenReturnsNoneIff(s: Sys, st: Step, id: CoroutineId)
    requires Sound(s) && Enabled(s, st) && id in s.requests && !s.requests[id].pc.Sending?
    requires Next(s, st).requests[id].pc.Sending?
    ensures Next(s, st).requests[id].pc.token == None
            <==> (st.IssueAnswer? || st.RefreshAnswer?) && st.reply.access == None
  {
  }

  /** A refresh call is only ever in flight with an access token to send along and a refresh token to exchange. */
  lemma RefreshesHaveTokens(s: Sys, id: CoroutineId)
    requires Sound(s) && id in s.requests && s.requests[id].pc == Refreshing
    ensures s.tokens.access != None && s.tokens.refresh != None && s.tokens.refresh != Some("")
  {
    assert RequestOk(s, id);
  }

  predicate IsGrant(st: Step) {
    (st.RefreshAnswer? || st.IssueAnswer?) && st.reply.Granted?
  }

  /** The history counts what it says: grants, tokens that were stale or null when granted, invalidations, expiries
      by the clock, and for every request the times it goes out. */
  lemma HistoryIsHonest(s: Sys, st: Step)
    requires Enabled(s, st)
    ensures var before, after := s.counts, Next(s, st).counts;
            && after.acquired == before.acquired + (if IsGrant(st) then 1 else 0)
            && after.invalidated == before.invalidated + (if st.Invalidate? then 1 else 0)
            && after.nullTokens == before.nullTokens + (if IsGrant(st) && st.reply.access == None then 1 else 0)
            && after.staleOnArrival == before.staleOnArrival
                                       + (if IsGrant(st) && !Fresh(Next(s, st).tokens, s.now) then 1 else 0)
            && after.expired == before.expired
                                + (if st.Tick? && Fresh(s.tokens, s.now) && !Fresh(s.tokens, s.now + st.elapsed)
                                   then 1 else 0)
    ensures Next(s, st).now == s.now + (if st.Tick? then st.elapsed else 0)
    ensures forall id :: id in s.requests ==>
              Next(s, st).requests[id].sends
              == s.requests[id].sends
                 + (if !s.requests[id].pc.Sending? && Next(s, st).requests[id].pc.Sending? then 1 else 0)
  {
  }

  /** The cost of any run: one acquisition to begin with, and after that one per expiry, per invalidation and
      per token that was already stale when it arrived. */
  lemma AcquisitionsAreBounded(now: Time, run: seq<Step>)
    requires ValidRun(StartAt(now), run)
    ensures var n := After(StartAt(now), run).counts;
            n.acquired <= 1 + n.expired + n.invalidated + n.staleOnArrival
  {
    SoundAlways(StartAt(now), run);
  }

  /** No request is sent more than twice, and without null tokens none is sent without a token. */
  lemma SendsAreBounded(now: Time, run: seq<Step>, id: CoroutineId)
    requires ValidRun(StartAt(now), run) && id in After(StartAt(now), run).requests
    ensures After(StartAt(now), run).requests[id].sends <= 2
    ensures After(StartAt(now), run).counts.nullTokens == 0 && After(StartAt(now), run).requests[id].pc.Sending?
            ==> After(StartAt(now), run).requests[id].pc.token.Some?
  {
    SoundAlways(StartAt(now), run);
    assert RequestOk(After(StartAt(now), run), id);
  }

  // ----- termination and progress -----

  function StepsLeft(me: Request): nat {
    (if me.retried then 0 else 10)
    + match me.pc
      case Begin => 9
      case AwaitLock => 8
      case Recheck => 7
      case Refreshing => 6
      case Issuing => 5
      case Sending(_) => 4
      case AwaitInvalidate => 3
      case Invalidating => 2
      case Ended(_) => 0
  }

  predicate MovesRequest(st: Step, id: CoroutineId) {
    !st.Tick? && !st.Arrive? && st.id == id
  }

  function MovesOf(run: seq<Step>, id: CoroutineId): nat {
    if run == [] then 0 else (if MovesRequest(run[0], id) then 1 else 0) + MovesOf(run[1..], id)
  }

  lemma StepShortensRequest(s: Sys, st: Step, id: CoroutineId)
    requires Enabled(s, st) && id in s.requests && Sound(s)
    ensures id in Next(s, st).requests
    ensures StepsLeft(Next(s, st).requests[id]) + (if MovesRequest(st, id) then 1 else 0)
            <= StepsLeft(s.requests[id])
  {
  }

  /** A request is over after at most 19 of its own steps, however the others are interleaved with it. */
  lemma {:induction false} RequestsAreShort(s: Sys, run: seq<Step>, id: CoroutineId)
    requires Sound(s) && ValidRun(s, run) && id in s.requests
    ensures id in After(s, run).requests
    ensures MovesOf(run, id) + StepsLeft(After(s, run).requests[id]) <= StepsLeft(s.requests[id]) <= 19
    decreases |run|
  {
    if run != [] {
      StepKeepsSound(s, run[0]);
      StepShortensRequest(s, run[0], id);
      RequestsAreShort(Next(s, run[0]), run[1..], id);
    }
  }

  /** Only the lock makes a request wait: requests arrive at any time, time passes at any time, every answer is
      possible, and a waiting request takes the lock whenever it is free. */
  lemma OnlyTheLockIsWaitedFor(s: Sys, id: CoroutineId, reply: TokenReply, sent: SendReply, elapsed: nat)
    ensures Enabled(s, Tick(elapsed))
    ensures id !in s.requests ==> Enabled(s, Arrive(id))
    ensures id in s.requests ==>
              match s.requests[id].pc
              case Begin => Enabled(s, Enter(id))
              case AwaitLock => s.lock == None ==> Enabled(s, Acquire(id))
              case Recheck => Enabled(s, CheckAgain(id))
              case Refreshing => Enabled(s, RefreshAnswer(id, reply))
              case Issuing => Enabled(s, IssueAnswer(id, reply))
              case Sending(_) => Enabled(s, SendAnswer(id, sent))
              case AwaitInvalidate => s.lock == None ==> Enabled(s, Acquire(id))
              case Invalidating => Enabled(s, Invalidate(id))
              case Ended(_) => true
  {
  }

  /** While any request is unfinished, some request can take a step. */
  lemma NoDeadlock(s: Sys, id: CoroutineId) returns (st: Step)
    requires Sound(s) && id in s.requests && !s.requests[id].pc.Ended?
    ensures Enabled(s, st) && !st.Tick? && !st.Arrive?
  {
    if WaitsForLock(s.requests[id].pc) && s.lock == None {
      st := Acquire(id);
    } else {
      var mover := if WaitsForLock(s.requests[id].pc) then s.lock.value else id;
      assert RequestOk(s, mover);
      match s.requests[mover].pc {
        case Begin => st := Enter(mover);
        case Recheck => st := CheckAgain(mover);
        case Refreshing => st := RefreshAnswer(mover, Rejected);
        case Issuing => st := IssueAnswer(mover, TransportError);
        case Sending(_) => st := SendAnswer(mover, NotJson);
        case Invalidating => st := Invalidate(mover);
        case _ => assert false;
      }
    }
  }

  // ----- the client object -----

  /** What the clock and the provider answer during one attempt of a request. */
  datatype Attempt = Attempt(now: Time, refresh: TokenReply, issue: TokenReply, sent: SendReply)

  predicate WasSent(end: Sys) {
    0 in end.requests && end.requests[0].pc.Sending?
  }

  /** Request 0 is about to start, and nobody holds the lock. */
  predicate Ready(s: Sys) {
    0 in s.requests && s.requests[0].pc.Begin? && s.lock == None
  }

  /** A request with nobody else around, from `_ensure_token` until it is sent or has failed. */
  function Drive(s: Sys, a: Attempt): (s': Sys)
    requires Ready(s)
    ensures s'.lock == None && 0 in s'.requests && s'.requests[0].retried == s.requests[0].retried
    ensures s'.requests[0].pc.Sending? || s'.requests[0].pc == Ended(false)
    ensures s'.requests[0].sends == s.requests[0].sends + (if s'.requests[0].pc.Sending? then 1 else 0)
  {
    var s := Next(s, Enter(0));
    if !s.requests[0].pc.AwaitLock? then s else
    var s := Next(Next(s, Acquire(0)), CheckAgain(0));
    var s := if s.requests[0].pc.Refreshing? then Next(s, RefreshAnswer(0, a.refresh)) else s;
    if s.requests[0].pc.Issuing? then Next(s, IssueAnswer(0, a.issue)) else s
  }

  /** The answer to the request's own call, up to the end or to the start of the retry. */
  function Answered(s: Sys, sent: SendReply): (s': Sys)
    requires WasSent(s) && s.lock == None
    ensures 0 in s'.requests && s'.lock == None
    ensures s'.requests[0].pc.Begin? || s'.requests[0].pc.Ended?
  {
    var s := Next(s, SendAnswer(0, sent));
    if s.requests[0].pc.AwaitInvalidate? then Next(Next(s, Acquire(0)), Invalidate(0)) else s
  }

  /** A whole request with nobody else around, through the second attempt if there is one. */
  function WholeRequest(s: Sys, first: Attempt, second: Attempt): (s': Sys)
    requires Ready(s)
    ensures 0 in s'.requests
    decreases !s.requests[0].retried
  {
    var s := Drive(s, first);
    if !WasSent(s) then s else
    var s := Answered(s, first.sent);
    if s.requests[0].pc.Begin? then WholeRequest(s.(now := second.now), second, second) else s
  }

  /** Without an access token the request issues one, whatever a refresh would have answered. */
  lemma DriveWithoutToken(s: Sys, a: Attempt)
    requires Ready(s) && s.tokens.access == None
    ensures WasSent(Drive(s, a)) <==> a.issue.Granted?
    ensures Drive(s, a).tokens.access == if a.issue.Granted? then a.issue.access else None
  {
  }

  /** The three ways on after the first attempt. */
  lemma WholeRequestGoesOn(s: Sys, first: Attempt, second: Attempt)
    requires Ready(s)
    ensures var once := Drive(s, first);
            if !WasSent(once) then WholeRequest(s, first, second) == once
            else if (first.sent == Status(401) || first.sent == Status(403)) && !s.requests[0].retried then
              var dropped := Answered(once, first.sent).(now := second.now);
              && Ready(dropped) && dropped.requests[0].retried
              && dropped.tokens == once.tokens.(access := None)
              && dropped.requests[0].sends == once.requests[0].sends
              && WholeRequest(s, first, second) == WholeRequest(dropped, second, second)
            else
              var end := WholeRequest(s, first, second);
              && end.tokens == once.tokens && end.requests[0].sends == once.requests[0].sends
              && end.requests[0].pc == Ended(first.sent.Status? && first.sent.code < 400)
  {
  }

  class NombaProvider {
    var accessToken: Option<string>
    var refreshToken: Option<string>
    var tokenExpiresAt: Option<Time>

    constructor ()
      ensures Fields() == NO_TOKENS
    {
      accessToken, refreshToken, tokenExpiresAt := None, None, None;
    }

    function Fields(): Tokens
      reads this
    {
      Tokens(accessToken, refreshToken, tokenExpiresAt)
    }

    method TokenIsFresh(now: Time) returns (isFresh: bool)
      ensures isFresh <==> Fresh(Fields(), now)
      ensures isFresh
              <==> accessToken != None && tokenExpiresAt != None && now < tokenExpiresAt.value - 5 * 60 * 1_000_000
    {
      isFresh := accessToken != None && tokenExpiresAt != None
               && now < tokenExpiresAt.value - TOKEN_REFRESH_BUFFER;
    }

    method IssueToken(reply: TokenReply) returns (ok: bool)
      modifies this
      ensures ok <==> reply.Granted?
      ensures Fields() == if ok then Issued(reply) else old(Fields())
      ensures ok ==> && accessToken == reply.access && tokenExpiresAt == Some(reply.expiresAt)
                     && refreshToken == if reply.refresh == None then None else reply.refresh.value
    {
      if !reply.Granted? {
        return false;
      }
      accessToken := reply.access;
      refreshToken := if reply.refresh.Some? then reply.refresh.value else None;
      tokenExpiresAt := Some(reply.expiresAt);
      return true;
    }

    method RefreshTokenCall(reply: TokenReply, issue: TokenReply) returns (ok: bool)
      modifies this
      ensures var exchange := old(refreshToken) != None && old(refreshToken) != Some("");
              && (ok <==> if exchange && !reply.Rejected? then reply.Granted? else issue.Granted?)
              && (!ok ==> Fields() == old(Fields()))
              && (ok && exchange && !reply.Rejected? ==>
                    && accessToken == reply.access && tokenExpiresAt == Some(reply.expiresAt)
                    && refreshToken == if reply.refresh == None then old(refreshToken) else reply.refresh.value)
              && (ok && !(exchange && !reply.Rejected?) ==>
                    && accessToken == issue.access && tokenExpiresAt == Some(issue.expiresAt)
                    && refreshToken == if issue.refresh == None then None else issue.refresh.value)
    {
      if refreshToken == None || refreshToken.value == "" {
        ok := IssueToken(issue);
        return;
      }
      match reply {
        case Rejected => ok := IssueToken(issue);
        case Granted(access, refresh, expiresAt) =>
          accessToken := access;
          refreshToken := if refresh.Some? then refresh.value else refreshToken;
          tokenExpiresAt := Some(expiresAt);
          ok := true;
        case _ => ok := false;
      }
    }

    /** With nobody else at the lock, where the second look at the clock finds nothing new, the object does what
        the concurrent machine's request does: it keeps a fresh token, issues when there is none, and otherwise
        refreshes, falling back to issuing without a refresh token or after a refusal. */
    method EnsureToken(ghost s: Sys, a: Attempt) returns (ok: bool, token: Option<string>)
      requires Ready(s) && s.tokens == Fields() && s.now == a.now
      modifies this
      ensures var end := Drive(s, a);
              && Fields() == end.tokens
              && (ok <==> WasSent(end))
              && (ok ==> token == end.requests[0].pc.token == accessToken)
      ensures old(accessToken) != None && old(tokenExpiresAt) != None
              && a.now < old(tokenExpiresAt).value - 5 * 60 * 1_000_000 ==>
                ok && token == old(accessToken) && Fields() == old(Fields())
      ensures old(accessToken) == None ==>
                && (ok <==> a.issue.Granted?)
                && (!ok ==> Fields() == old(Fields()))
                && (ok ==> && token == accessToken == a.issue.access && tokenExpiresAt == Some(a.issue.expiresAt)
                           && refreshToken == if a.issue.refresh == None then None else a.issue.refresh.value)
      ensures old(accessToken) != None && (old(tokenExpiresAt) == None
                                           || old(tokenExpiresAt).value - 5 * 60 * 1_000_000 <= a.now) ==>
                var exchange := old(refreshToken) != None && old(refreshToken) != Some("");
                && (ok <==> if exchange && !a.refresh.Rejected? then a.refresh.Granted? else a.issue.Granted?)
                && (!ok ==> Fields() == old(Fields()))
                && (ok && exchange && !a.refresh.Rejected? ==>
                      && token == accessToken == a.refresh.access && tokenExpiresAt == Some(a.refresh.expiresAt)
                      && refreshToken == if a.refresh.refresh == None then old(refreshToken) else a.refresh.refresh.value)
                && (ok && !(exchange && !a.refresh.Rejected?) ==>
                      && token == accessToken == a.issue.access && tokenExpiresAt == Some(a.issue.expiresAt)
                      && refreshToken == if a.issue.refresh == None then None else a.issue.refresh.value)
    {
      var isFresh := TokenIsFresh(a.now);
      if isFresh {
        return true, accessToken;
      }
      if accessToken == None {
        ok := IssueToken(a.issue);
      } else {
        ok := RefreshTokenCall(a.refresh, a.issue);
      }
      return ok, accessToken;
    }

    /** `second` is what happens on the retry, if there is one: after a 401 or 403 the access token is dropped and
        the request goes out once more, now with an issued token or not at all. */
    method Send(ghost s: Sys, retried: bool, first: Attempt, second: Attempt) returns (ok: bool, sends: nat)
      requires Ready(s) && s.tokens == Fields() && s.now == first.now && s.requests[0].retried == retried
      modifies this
      decreases !retried
      ensures var end := WholeRequest(s, first, second);
              && Fields() == end.tokens && end.requests[0].pc == Ended(ok)
              && end.requests[0].sends == s.requests[0].sends + sends
      ensures sends <= if retried then 1 else 2
      ensures var once := Drive(s, first);
              if !WasSent(once) then !ok && sends == 0 && Fields() == once.tokens
              else if (first.sent == Status(401) || first.sent == Status(403)) && !retried then
                && sends == (if second.issue.Granted? then 2 else 1)
                && (ok <==> second.issue.Granted? && second.sent.Status? && second.sent.code < 400)
                && accessToken == (if second.issue.Granted? then second.issue.access else None)
              else
                Fields() == once.tokens && sends == 1 && (ok <==> first.sent.Status? && first.sent.code < 400)
    {
      var token;
      WholeRequestGoesOn(s, first, second);
      ok, token := EnsureToken(s, first);
      if !ok {
        return false, 0;
      }
      if first.sent.Status? && (first.sent.code == 401 || first.sent.code == 403) && !retried {
        accessToken := None;
        ghost var dropped := Answered(Drive(s, first), first.sent).(now := second.now);
        DriveWithoutToken(dropped, second);
        ok, sends := Send(dropped, true, second, second);
        sends := sends + 1;
        return;
      }
      return first.sent.Status? && first.sent.code < 400, 1;
    }
  }
}
