/** Refresh tokens with rotation and reuse detection, the pattern of section 10.4 of RFC 6749. Tokens stand for
    their SHA-256 digests, the unique key of the table, read as numbers. */
module RefreshTokens {
  import opened Options

  type Time = int
  type UserId = int
  type Token = nat

  /** `chain` is history: the number of the login this token descends from by rotation. */
  datatype Row = Row(user: UserId, expiresAt: Time, revoked: bool, chain: nat)

  type Table = map<Token, Row>

  /** `logins` is history: how many logins there have been. */
  datatype State = State(rows: Table, logins: nat)

  const NOBODY: State := State(map[], 0)

  /** `subject` is the user in the decoded token, `None` when decoding fails (bad signature, wrong type, or
      expired by the token's own claim). */
  datatype Op =
    | Login(user: UserId, token: Token, expiresAt: Time)
    | Rotate(token: Token, subject: Option<UserId>, userExists: bool, now: Time, minted: Token, expiresAt: Time)
    | Revoke(token: Token)
    | LogoutEverywhere(user: UserId)

  function RevokeRow(rows: Table, t: Token): Table
    requires t in rows
  {
    rows[t := rows[t].(revoked := true)]
  }

  function RevokeAll(rows: Table, u: UserId): Table {
    map t | t in rows :: if rows[t].user == u then rows[t].(revoked := true) else rows[t]
  }

  /** The presented token is a live row of the user it was signed for. */
  predicate Live(rows: Table, t: Token, u: UserId, now: Time) {
    t in rows && rows[t].user == u && !rows[t].revoked && now <= rows[t].expiresAt
  }

  /** The exchange succeeds; a new token that is already in the table would violate its unique key. */
  predicate Accepts(rows: Table, op: Op) {
    && op.Rotate? && op.subject.Some?
    && Live(rows, op.token, op.subject.value, op.now)
    && op.userExists && op.minted !in rows
  }

  /** A decodable token that is unknown, revoked or expired: the whole user is signed out. */
  predicate Replay(rows: Table, op: Op) {
    op.Rotate? && op.subject.Some? && !Live(rows, op.token, op.subject.value, op.now)
  }

  function Apply(s: State, op: Op): State {
    match op
    case Login(u, t, expiresAt) =>
      if t in s.rows then s else State(s.rows[t := Row(u, expiresAt, false, s.logins)], s.logins + 1)
    case Rotate(t, subject, _, _, minted, expiresAt) =>
      if Replay(s.rows, op) then s.(rows := RevokeAll(s.rows, subject.value))
      else if Accepts(s.rows, op) then
        s.(rows := RevokeRow(s.rows, t)[minted := Row(subject.value, expiresAt, false, s.rows[t].chain)])
      else s
    case Revoke(t) => if t in s.rows then s.(rows := RevokeRow(s.rows, t)) else s
    case LogoutEverywhere(u) => s.(rows := RevokeAll(s.rows, u))
  }

  function Run(s: State, ops: seq<Op>): State
    decreases |ops|
  {
    if ops == [] then s else Run(Apply(s, ops[0]), ops[1..])
  }

  /** How often a token is accepted over a run. */
  function Acceptances(s: State, ops: seq<Op>, t: Token): nat
    decreases |ops|
  {
    if ops == [] then 0
    else (if Accepts(s.rows, ops[0]) && ops[0].token == t then 1 else 0)
         + Acceptances(Apply(s, ops[0]), ops[1..], t)
  }

  // ----- revocation is final -----

  predicate Dead(s: State, t: Token) {
    t in s.rows && s.rows[t].revoked
  }

  lemma DeadStaysDead(s: State, op: Op, t: Token)
    requires Dead(s, t)
    ensures Dead(Apply(s, op), t)
    ensures !(Accepts(s.rows, op) && op.token == t)
  {
  }

  lemma {:induction false} DeadIsNeverAccepted(s: State, ops: seq<Op>, t: Token)
    requires Dead(s, t)
    ensures Dead(Run(s, ops), t) && Acceptances(s, ops, t) == 0
    decreases |ops|
  {
    if ops != [] {
      DeadStaysDead(s, ops[0], t);
      DeadIsNeverAccepted(Apply(s, ops[0]), ops[1..], t);
    }
  }

  /** Each token is accepted at most once, over any run of logins, rotations, replays and logouts. */
  lemma {:induction false} AcceptedAtMostOnce(s: State, ops: seq<Op>, t: Token)
    ensures Acceptances(s, ops, t) <= 1
    decreases |ops|
  {
    if ops != [] {
      var s' := Apply(s, ops[0]);
      if Accepts(s.rows, ops[0]) && ops[0].token == t {
        assert Dead(s', t);
        DeadIsNeverAccepted(s', ops[1..], t);
      } else {
        AcceptedAtMostOnce(s', ops[1..], t);
      }
    }
  }

  /** Logging out with a token, or everywhere, ends the tokens concerned for good. */
  lemma LogoutIsFinal(s: State, t: Token, later: seq<Op>)
    requires t in s.rows
    ensures Acceptances(Apply(s, Revoke(t)), later, t) == 0
    ensures Acceptances(Apply(s, LogoutEverywhere(s.rows[t].user)), later, t) == 0
  {
    assert Dead(Apply(s, Revoke(t)), t) && Dead(Apply(s, LogoutEverywhere(s.rows[t].user)), t);
    DeadIsNeverAccepted(Apply(s, Revoke(t)), later, t);
    DeadIsNeverAccepted(Apply(s, LogoutEverywhere(s.rows[t].user)), later, t);
  }

  /** A token just issued by a login or a rotation is accepted for its own user up to its own expiry, and refused
      afterwards or for anyone else. */
  lemma IssuedTokenIsLive(s: State, issue: Op, use: Op)
    requires (issue.Login? && issue.token !in s.rows) || Accepts(s.rows, issue)
    requires use.Rotate? && use.subject.Some? && use.userExists
    requires use.token == (if issue.Login? then issue.token else issue.minted)
    requires use.minted !in Apply(s, issue).rows
    ensures var user := if issue.Login? then issue.user else issue.subject.value;
            Accepts(Apply(s, issue).rows, use) <==> use.subject.value == user && use.now <= issue.expiresAt
  {
  }

  /** After a replay, no token issued to that user before is ever accepted again. */
  lemma ReplaySignsOutForGood(s: State, replay: Op, later: seq<Op>, t: Token)
    requires Replay(s.rows, replay) && t in s.rows && s.rows[t].user == replay.subject.value
    ensures Acceptances(Apply(s, replay), later, t) == 0
    ensures Dead(Run(Apply(s, replay), later), t)
  {
    assert Dead(Apply(s, replay), t);
    DeadIsNeverAccepted(Apply(s, replay), later, t);
  }

  /** And a replay reaches nobody else. */
  lemma ReplaySparesOthers(s: State, replay: Op, t: Token)
    requires Replay(s.rows, replay) && t in s.rows && s.rows[t].user != replay.subject.value
    ensures t in Apply(s, replay).rows && Apply(s, replay).rows[t] == s.rows[t]
  {
  }

  // ----- chains -----

  /** Each login's rotation chain belongs to one user and has at most one token that is not revoked. */
  ghost predicate ChainsOk(s: State) {
    && (forall t :: t in s.rows ==> s.rows[t].chain < s.logins)
    && (forall t1, t2 :: t1 in s.rows && t2 in s.rows && s.rows[t1].chain == s.rows[t2].chain ==>
          s.rows[t1].user == s.rows[t2].user && (s.rows[t1].revoked || s.rows[t2].revoked || t1 == t2))
  }

  lemma ChainsStayOk(s: State, op: Op)
    requires ChainsOk(s)
    ensures ChainsOk(Apply(s, op))
  {
    if Accepts(s.rows, op) {
      RotationKeepsChainsOk(s, op);
    }
  }

  /** The live token of a chain hands over to its successor. */
  lemma RotationKeepsChainsOk(s: State, op: Op)
    requires ChainsOk(s) && Accepts(s.rows, op)
    ensures ChainsOk(Apply(s, op))
  {
  }

  lemma {:induction false} OneLiveTokenPerLogin(s: State, ops: seq<Op>)
    requires ChainsOk(s)
    ensures ChainsOk(Run(s, ops))
    decreases |ops|
  {
    if ops != [] {
      ChainsStayOk(s, ops[0]);
      OneLiveTokenPerLogin(Apply(s, ops[0]), ops[1..]);
    }
  }

  // ----- the service -----

  datatype RotateResult = Rotated | InvalidToken | Reused | NoSuchUser | KeyCollision

  class AuthService {
    var rows: Table
    var logins: nat

    constructor ()
      ensures Contents() == NOBODY
    {
      rows, logins := map[], 0;
    }

    function Contents(): State
      reads this
    {
      State(rows, logins)
    }

    method IssueTokens(user: UserId, token: Token, expiresAt: Time) returns (ok: bool)
      modifies this
      ensures ok <==> token !in old(rows)
      ensures Contents() == Apply(old(Contents()), Login(user, token, expiresAt))
      ensures rows == if ok then old(rows)[token := Row(user := user, expiresAt := expiresAt, revoked := false,
                                                        chain := old(logins))] else old(rows)
    {
      if token in rows {
        return false;
      }
      rows := rows[token := Row(user, expiresAt, false, logins)];
      logins := logins + 1;
      return true;
    }

    method RotateTokens(token: Token, subject: Option<UserId>, userExists: bool, now: Time,
                        minted: Token, expiresAt: Time) returns (result: RotateResult)
      modifies this
      ensures var op := Rotate(token, subject, userExists, now, minted, expiresAt);
              && Contents() == Apply(old(Contents()), op)
              && (result == Rotated <==> Accepts(old(rows), op))
              && (result == Reused <==> Replay(old(rows), op))
      ensures result == InvalidToken <==> subject == None
      ensures result == Rotated
              <==> && subject.Some? && token in old(rows) && old(rows)[token].user == subject.value
                   && !old(rows)[token].revoked && now <= old(rows)[token].expiresAt
                   && userExists && minted !in old(rows)
      ensures result == Reused
              <==> subject.Some? && !(token in old(rows) && old(rows)[token].user == subject.value
                                      && !old(rows)[token].revoked && now <= old(rows)[token].expiresAt)
      ensures result == Rotated ==>
                var used := old(rows)[token];
                rows == old(rows)[token := used.(revoked := true)]
                                 [minted := Row(user := subject.value, expiresAt := expiresAt, revoked := false,
                                                chain := used.chain)]
      ensures result == Reused ==>
                && rows.Keys == old(rows).Keys
                && forall t :: t in rows ==>
                     rows[t] == if old(rows)[t].user == subject.value then old(rows)[t].(revoked := true) else old(rows)[t]
      ensures result != Rotated && result != Reused ==> rows == old(rows)
    {
      if subject == None {
        return InvalidToken;
      }
      var userId := subject.value;
      if token !in rows || rows[token].user != userId || rows[token].revoked || rows[token].expiresAt < now {
        RevokeAllForUser(userId);
        return Reused;
      }
      var before := rows;
      rows := rows[token := rows[token].(revoked := true)];
      if !userExists {
        rows := before;
        return NoSuchUser;
      }
      if minted in rows {
        rows := before;
        return KeyCollision;
      }
      rows := rows[minted := Row(userId, expiresAt, false, rows[token].chain)];
      return Rotated;
    }

    method RevokeRefresh(token: Token)
      modifies this`rows
      ensures Contents() == Apply(old(Contents()), Revoke(token))
      ensures rows == if token in old(rows) then old(rows)[token := old(rows)[token].(revoked := true)] else old(rows)
    {
      if token in rows && !rows[token].revoked {
        rows := rows[token := rows[token].(revoked := true)];
      }
    }

    /** Revokes the outstanding rows one at a time. */
    method RevokeAllForUser(user: UserId)
      modifies this`rows
      ensures Contents() == Apply(old(Contents()), LogoutEverywhere(user))
      ensures rows.Keys == old(rows).Keys
      ensures forall t :: t in rows ==>
                rows[t] == if old(rows)[t].user == user then old(rows)[t].(revoked := true) else old(rows)[t]
    {
      var before := rows;
      var outstanding := set t | t in rows && rows[t].user == user && !rows[t].revoked;
      while true
        invariant rows.Keys == before.Keys
        invariant outstanding <= rows.Keys
        invariant forall t :: t in outstanding ==> before[t].user == user
        invariant forall t :: t in before ==> rows[t] == if before[t].user == user && t !in outstanding
                                                         then before[t].(revoked := true) else before[t]
        decreases |outstanding|
      {
        if t :| t in outstanding {
          outstanding := outstanding - {t};
          rows := rows[t := rows[t].(revoked := true)];
        } else {
          break;
        }
      }
      assert rows == RevokeAll(before, user);
    }

    /** `None` is a missing or empty token. */
    method LogoutUser(user: UserId, token: Option<Token>)
      modifies this
      ensures Contents() == Apply(old(Contents()), if token.Some? then Revoke(token.value) else LogoutEverywhere(user))
      ensures rows.Keys == old(rows).Keys
      ensures forall t :: t in rows ==>
                rows[t] == if (if token.Some? then t == token.value else old(rows)[t].user == user)
                           then old(rows)[t].(revoked := true) else old(rows)[t]
    {
      if token.Some? {
        RevokeRefresh(token.value);
      } else {
        RevokeAllForUser(user);
      }
    }
  }
}
