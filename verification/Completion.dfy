/** Password setup codes and the lease one completion holds its account by. Codes and tokens are
    opaque; equal values stand for equal hashes. */
module Completion {
  import opened Sums

  type Id = nat

  const LIFETIME_MS := 10 * 60000
  const MAX_ATTEMPTS := 5
  const IDENTITY_TIMEOUT_MS := 4000
  const COMPLETION_ISSUER_CALLS := 9
  const COMPLETION_TRANSACTIONS := 3
  const PRISMA_TRANSACTION_BOUND_MS := 2000 + 5000
  const POOL_MARGIN_MS := 30000
  const COMPLETION_LEASE_MS :=
    COMPLETION_ISSUER_CALLS * IDENTITY_TIMEOUT_MS + COMPLETION_TRANSACTIONS * PRISMA_TRANSACTION_BOUND_MS +
        POOL_MARGIN_MS

  datatype Challenge = Challenge(
    user: Id, otp: Id, attempts: nat, expiresAt: int, verifiedAt: Option<int>,
    token: Option<Id>, tokenExpiresAt: Option<int>, consumedAt: Option<int>)

  type Table = map<Id, Challenge>

  /** A claim: spent with its token's expiry cleared, which a retirement never does. */
  predicate Claimed(c: Challenge) {
    c.verifiedAt.Some? && c.consumedAt.Some? && c.tokenExpiresAt.None?
  }

  /** A claim that has not been settled and whose lease has not run out. */
  predicate Running(c: Challenge, now: int) {
    Claimed(c) && c.token.Some? && c.consumedAt.value > now - COMPLETION_LEASE_MS
  }

  predicate Busy(t: Table, user: Id, now: int) {
    exists id :: id in t && t[id].user == user && Running(t[id], now)
  }

  // ── what each request does to the table ──────────────────────────────────────────────────────

  /** A new code retires the account's unspent ones and takes a fresh row. */
  function Requested(t: Table, user: Id, id: Id, otp: Id, now: int): Table {
    if id in t then t else
    (map k | k in t :: if t[k].user == user && t[k].consumedAt.None? then t[k].(consumedAt := Some(now)) else t[k])
      [id := Challenge(user, otp, 0, now + LIFETIME_MS, None, None, None, None)]
  }

  predicate Verifiable(c: Challenge, now: int) {
    c.consumedAt.None? && c.verifiedAt.None? && c.expiresAt > now && c.attempts < MAX_ATTEMPTS
  }

  /** A wrong code counts against the row and spends it at the last attempt; the right one binds a
      token that is not in use. */
  function Verified(t: Table, id: Id, otp: Id, token: Id, now: int): Table {
    if id !in t || !Verifiable(t[id], now) then t
    else if t[id].otp != otp then
      t[id := t[id].(attempts := t[id].attempts + 1,
                     consumedAt := if t[id].attempts + 1 >= MAX_ATTEMPTS then Some(now) else None)]
    else t[id := t[id].(verifiedAt := Some(now), token := Some(token), tokenExpiresAt := Some(now + LIFETIME_MS))]
  }

  predicate Claimable(t: Table, id: Id, token: Id, now: int) {
    && id in t && t[id].consumedAt.None? && t[id].verifiedAt.Some? && t[id].token == Some(token)
    && t[id].tokenExpiresAt.Some? && t[id].tokenExpiresAt.value > now
    && !Busy(t, t[id].user, now)
  }

  /** The claim, under the account's lock and by the database clock. */
  function Claims(t: Table, id: Id, token: Id, eligible: bool, now: int): Table {
    if !Claimable(t, id, token, now) || !eligible then t
    else t[id := t[id].(consumedAt := Some(now), tokenExpiresAt := None)]
  }

  /** A completion that ended clears its token. */
  function Settles(t: Table, id: Id): Table {
    if id in t && Claimed(t[id]) then t[id := t[id].(token := None)] else t
  }

  /** Times of requests and verifications are the application's and may be anything; `now` of a claim
      is the database clock, which never goes back. */
  datatype Op =
    | Request(user: Id, id: Id, otp: Id, at: int)
    | Verify(id: Id, otp: Id, token: Id, at: int)
    | Claim(id: Id, token: Id, eligible: bool, now: int)
    | Settle(id: Id)
    | CompleteHere(id: Id, token: Id, eligible: bool, now: int)  // claim and settle in one transaction

  function After(t: Table, op: Op): Table {
    match op
    case Request(user, id, otp, at) => Requested(t, user, id, otp, at)
    case Verify(id, otp, token, at) => Verified(t, id, otp, token, at)
    case Claim(id, token, eligible, now) => Claims(t, id, token, eligible, now)
    case Settle(id) => Settles(t, id)
    case CompleteHere(id, token, eligible, now) =>
      if Claimable(t, id, token, now) && eligible then Settles(Claims(t, id, token, eligible, now), id) else t
  }

  function ClockAfter(clock: int, op: Op): int {
    if op.Claim? || op.CompleteHere? then op.now else clock
  }

  predicate OnTime(clock: int, op: Op) { op.Claim? || op.CompleteHere? ==> clock <= op.now }

  // ── one completion at a time ─────────────────────────────────────────────────────────────────

  predicate Unsettled(c: Challenge) { Claimed(c) && c.token.Some? }

  /** Two claims of one account never overlap their leases. */
  ghost predicate Apart(t: Table, clock: int) {
    && (forall id :: id in t && Claimed(t[id]) ==> t[id].consumedAt.value <= clock)
    && (forall a, b :: a in t && b in t && a != b && t[a].user == t[b].user && Unsettled(t[a]) && Unsettled(t[b]) ==>
          t[a].consumedAt.value + COMPLETION_LEASE_MS <= t[b].consumedAt.value ||
          t[b].consumedAt.value + COMPLETION_LEASE_MS <= t[a].consumedAt.value)
    && (forall id :: id in t && t[id].verifiedAt.Some? && t[id].tokenExpiresAt.None? ==> t[id].consumedAt.Some?)
  }

  /** A claim comes a whole lease after every unsettled claim of its account. */
  lemma ClaimWaitsItsTurn(t: Table, id: Id, token: Id, now: int, b: Id)
    requires Claimable(t, id, token, now) && b in t && t[b].user == t[id].user && Unsettled(t[b])
    ensures t[b].consumedAt.value + COMPLETION_LEASE_MS <= now
  {
    assert !Running(t[b], now);
  }

  lemma ClaimKeepsApart(t: Table, clock: int, id: Id, token: Id, eligible: bool, now: int)
    requires Apart(t, clock) && clock <= now
    ensures Apart(Claims(t, id, token, eligible, now), now)
  {
    if Claimable(t, id, token, now) && eligible {
      forall b | b in t && b != id && t[b].user == t[id].user && Unsettled(t[b])
        ensures t[b].consumedAt.value + COMPLETION_LEASE_MS <= now
      {
        ClaimWaitsItsTurn(t, id, token, now, b);
      }
    }
  }

  lemma SettleKeepsApart(t: Table, clock: int, id: Id)
    requires Apart(t, clock)
    ensures Apart(Settles(t, id), clock)
  {
  }

  lemma IssueKeepsApart(t: Table, clock: int, op: Op)
    requires Apart(t, clock) && (op.Request? || op.Verify?)
    ensures Apart(After(t, op), clock)
  {
    var now := After(t, op);
    forall k | k in now && Claimed(now[k])
      ensures k in t && now[k] == t[k]
    {
    }
  }

  lemma StepKeepsApart(t: Table, clock: int, op: Op)
    requires Apart(t, clock) && OnTime(clock, op)
    ensures Apart(After(t, op), ClockAfter(clock, op))
  {
    match op
    case Request(_, _, _, _) => IssueKeepsApart(t, clock, op);
    case Verify(_, _, _, _) => IssueKeepsApart(t, clock, op);
    case Settle(id) => SettleKeepsApart(t, clock, id);
    case Claim(id, token, eligible, now) => ClaimKeepsApart(t, clock, id, token, eligible, now);
    case CompleteHere(id, token, eligible, now) =>
      ClaimKeepsApart(t, clock, id, token, eligible, now);
      if Claimable(t, id, token, now) && eligible {
        SettleKeepsApart(Claims(t, id, token, eligible, now), now, id);
      }
  }

  /** What a run leaves, and the database clock when it ends. */
  function Run(t: Table, ops: seq<Op>): Table {
    if |ops| == 0 then t else After(Run(t, ops[..|ops| - 1]), ops[|ops| - 1])
  }

  function Clock(clock: int, ops: seq<Op>): int {
    if |ops| == 0 then clock else ClockAfter(Clock(clock, ops[..|ops| - 1]), ops[|ops| - 1])
  }

  predicate Timely(clock: int, ops: seq<Op>) {
    |ops| == 0 || (Timely(clock, ops[..|ops| - 1]) && OnTime(Clock(clock, ops[..|ops| - 1]), ops[|ops| - 1]))
  }

  lemma {:induction false} RunKeepsApart(t: Table, clock: int, ops: seq<Op>)
    requires Apart(t, clock) && Timely(clock, ops)
    ensures Apart(Run(t, ops), Clock(clock, ops))
  {
    if |ops| > 0 {
      RunKeepsApart(t, clock, ops[..|ops| - 1]);
      StepKeepsApart(Run(t, ops[..|ops| - 1]), Clock(clock, ops[..|ops| - 1]), ops[|ops| - 1]);
    }
  }

  /** AT MOST ONE COMPLETION RUNS per account: after any run from an empty table, at any later time,
      two rows whose claims are unexpired and unsettled are the same row. */
  lemma AtMostOneRunning(ops: seq<Op>, clock: int, now: int, a: Id, b: Id)
    requires Timely(clock, ops) && Clock(clock, ops) <= now
    requires a in Run(map[], ops) && b in Run(map[], ops)
    requires Run(map[], ops)[a].user == Run(map[], ops)[b].user
    requires Running(Run(map[], ops)[a], now) && Running(Run(map[], ops)[b], now)
    ensures a == b
  {
    RunKeepsApart(map[], clock, ops);
  }

  /** A retired code is not a claim, however far it had come. */
  lemma RetiringClaimsNothing(t: Table, clock: int, user: Id, id: Id, otp: Id, at: int, k: Id)
    requires Apart(t, clock) && k in Requested(t, user, id, otp, at) && Claimed(Requested(t, user, id, otp, at)[k])
    ensures k in t && Claimed(t[k]) && Requested(t, user, id, otp, at)[k] == t[k]
  {
  }

  // ── a code is spent once ─────────────────────────────────────────────────────────────────────

  /** Nothing un-spends a row, or moves the moment it was spent. */
  lemma SpentStays(t: Table, op: Op, id: Id)
    requires id in t && t[id].consumedAt.Some?
    ensures id in After(t, op) && After(t, op)[id].consumedAt == t[id].consumedAt
  {
  }

  lemma {:induction false} SpentForGood(t: Table, ops: seq<Op>, id: Id)
    requires id in t && t[id].consumedAt.Some?
    ensures id in Run(t, ops) && Run(t, ops)[id].consumedAt == t[id].consumedAt
  {
    if |ops| > 0 {
      SpentForGood(t, ops[..|ops| - 1], id);
      SpentStays(Run(t, ops[..|ops| - 1]), ops[|ops| - 1], id);
    }
  }

  /** A SPENT CODE IS NEVER CLAIMED AGAIN, whatever happens in between. */
  lemma NeverClaimedAgain(t: Table, ops: seq<Op>, id: Id, token: Id, now: int)
    requires id in t && t[id].consumedAt.Some?
    ensures !Claimable(Run(t, ops), id, token, now)
  {
    SpentForGood(t, ops, id);
  }

  // ── what a code, a token and a claim are good for ────────────────────────────────────────────

  /** Wrong codes, one after another, before the code runs out. */
  predicate WrongGuesses(ops: seq<Op>, id: Id, otp: Id, until: int) {
    forall k :: 0 <= k < |ops| ==> ops[k].Verify? && ops[k].id == id && ops[k].otp != otp && ops[k].at < until
  }

  lemma {:induction false} Guessed(t: Table, user: Id, id: Id, otp: Id, issued: int, guesses: seq<Op>)
    requires id !in t && WrongGuesses(guesses, id, otp, issued + 600000)
    ensures id in Run(Requested(t, user, id, otp, issued), guesses)
    ensures var row := Run(Requested(t, user, id, otp, issued), guesses)[id];
            && row.user == user && row.otp == otp && row.expiresAt == issued + 600000 && row.verifiedAt.None?
            && row.token.None? && row.tokenExpiresAt.None?
            && (row.consumedAt.None? <==> |guesses| < 5) && (|guesses| < 5 ==> row.attempts == |guesses|)
  {
    if |guesses| > 0 {
      Guessed(t, user, id, otp, issued, guesses[..|guesses| - 1]);
    }
  }

  /** A CODE IS GOOD for ten minutes and through four wrong guesses: the right one then verifies, and the
      fifth wrong one spends it. */
  lemma CodeLives(t: Table, user: Id, id: Id, otp: Id, issued: int, guesses: seq<Op>, token: Id, at: int)
    requires id !in t && WrongGuesses(guesses, id, otp, issued + 600000)
    ensures id in After(Run(After(t, Request(user, id, otp, issued)), guesses), Verify(id, otp, token, at))
    ensures var row := After(Run(After(t, Request(user, id, otp, issued)), guesses), Verify(id, otp, token, at))[id];
            && (row.verifiedAt.Some? <==> |guesses| < 5 && at < issued + 600000)
            && (row.verifiedAt.Some? ==>
                && row.verifiedAt.value == at && row.token == Some(token)
                && row.tokenExpiresAt == Some(at + 600000) && row.consumedAt.None?)
  {
    Guessed(t, user, id, otp, issued, guesses);
  }

  /** It retires every unspent code of its account, and touches nothing else. */
  lemma RequestRetires(t: Table, user: Id, id: Id, otp: Id, now: int, k: Id, token: Id, at: int)
    requires id !in t && k in t
    ensures Requested(t, user, id, otp, now).Keys == t.Keys + {id}
    ensures t[k].user != user || t[k].consumedAt.Some? ==> Requested(t, user, id, otp, now)[k] == t[k]
    ensures t[k].user == user ==>
              && Requested(t, user, id, otp, now)[k].consumedAt.Some?
              && Verified(Requested(t, user, id, otp, now), k, t[k].otp, token, at) == Requested(t, user, id, otp, now)
              && !Claimable(Requested(t, user, id, otp, now), k, token, at)
    ensures Requested(t, user, k, otp, now) == t
  {
  }

  /** An account is busy with a completion claimed less than 87 seconds ago and not settled. */
  lemma BusyExactly(t: Table, user: Id, now: int)
    ensures Busy(t, user, now) <==>
            exists k :: k in t && t[k].user == user && t[k].verifiedAt.Some? && t[k].tokenExpiresAt.None? &&
              t[k].token.Some? && t[k].consumedAt.Some? && now < t[k].consumedAt.value + 87000
  {
    forall k | k in t
      ensures Running(t[k], now) <==>
              t[k].verifiedAt.Some? && t[k].tokenExpiresAt.None? && t[k].token.Some? && t[k].consumedAt.Some? &&
                  now < t[k].consumedAt.value + 87000
    {
    }
  }

  /** A verified row's token, and no other, claims it, for ten minutes, while its account is not busy. */
  lemma TokenLives(t: Table, id: Id, otp: Id, token: Id, at: int, given: Id, now: int)
    requires id in t && t[id].verifiedAt.None? && id in Verified(t, id, otp, token, at)
    requires Verified(t, id, otp, token, at)[id].verifiedAt.Some?
    ensures Claimable(Verified(t, id, otp, token, at), id, given, now) <==>
            given == token && now < at + 600000 && !Busy(t, t[id].user, now)
  {
    var after := Verified(t, id, otp, token, at);
    assert after[id].user == t[id].user;
    assert forall k :: k in t ==> k in after && (Running(after[k], now) <==> Running(t[k], now));
    if Busy(t, t[id].user, now) {
      var k :| k in t && t[k].user == t[id].user && Running(t[k], now);
      assert after[k].user == t[id].user && Running(after[k], now);
    }
    if Busy(after, t[id].user, now) {
      var k :| k in after && after[k].user == t[id].user && Running(after[k], now);
      assert Running(t[k], now);
    }
  }

  /** A claim holds its account for 87 seconds or until it is settled; an ineligible account is left
      unclaimed. */
  lemma LeaseHolds(t: Table, id: Id, token: Id, now: int, later: int)
    requires Claimable(t, id, token, now) && now <= later
    ensures id in Claims(t, id, token, true, now) && id in Settles(Claims(t, id, token, true, now), id)
    ensures later < now + 87000 ==> Busy(Claims(t, id, token, true, now), t[id].user, later)
    ensures later >= now + 87000 ==> !Busy(Claims(t, id, token, true, now), t[id].user, later)
    ensures !Busy(Settles(Claims(t, id, token, true, now), id), t[id].user, later)
    ensures Claims(t, id, token, false, now) == t
    ensures After(t, CompleteHere(id, token, true, now)) == Settles(Claims(t, id, token, true, now), id)
  {
    var after := Claims(t, id, token, true, now);
    assert Running(after[id], later) <==> later < now + 87000;
    forall k | k in t && k != id && t[k].user == t[id].user
      ensures !Running(t[k], later)
    {
      assert !Running(t[k], now);
    }
  }

  // ── the lease outlasts the work ──────────────────────────────────────────────────────────────

  function Total(times: seq<nat>): nat {
    if |times| == 0 then 0 else Total(times[..|times| - 1]) + times[|times| - 1]
  }

  lemma {:induction false} TotalBounded(times: seq<nat>, most: nat, count: nat)
    requires |times| <= count && forall i :: 0 <= i < |times| ==> times[i] <= most
    ensures Total(times) <= count * most
  {
    if |times| > 0 {
      TotalBounded(times[..|times| - 1], most, count - 1);
      assert count * most == (count - 1) * most + most;
    }
  }

  /** The next claim on an account comes only after the earlier completion settled, or after every
      issuer call and transaction that one could make had ended. */
  lemma NextClaimWaits(t: Table, earlier: Id, id: Id, token: Id, now: int, calls: seq<nat>, transactions: seq<nat>,
      waits: nat)
    requires Claimable(t, id, token, now)
    requires earlier in t && t[earlier].user == t[id].user && Claimed(t[earlier])
    requires |calls| <= COMPLETION_ISSUER_CALLS && forall i :: 0 <= i < |calls| ==> calls[i] <= IDENTITY_TIMEOUT_MS
    requires |transactions| <= COMPLETION_TRANSACTIONS && forall i :: 0 <= i < |transactions| ==>
              transactions[i] <= PRISMA_TRANSACTION_BOUND_MS
    requires waits <= POOL_MARGIN_MS
    ensures t[earlier].token.None? || t[earlier].consumedAt.value + Total(calls) + Total(transactions) + waits <= now
  {
    TotalBounded(calls, IDENTITY_TIMEOUT_MS, COMPLETION_ISSUER_CALLS);
    TotalBounded(transactions, PRISMA_TRANSACTION_BOUND_MS, COMPLETION_TRANSACTIONS);
    assert !Running(t[earlier], now);
  }

  // ── the rows as they are written ─────────────────────────────────────────────────────────────

  class Credentials {
    var rows: Table

    constructor ()
      ensures rows == map[]
    {
      rows := map[];
    }

    method RequestCode(user: Id, id: Id, otp: Id, now: int)
      modifies this
      ensures rows == Requested(old(rows), user, id, otp, now)
    {
      if id in rows {
        return;
      }
      var was := rows;
      var todo := rows.Keys;
      while todo != {}
        invariant todo <= was.Keys && rows.Keys == was.Keys
        invariant forall k :: k in was ==>
                    rows[k] ==
                        if k !in todo && was[k].user == user && was[k].consumedAt.None?
                        then was[k].(consumedAt := Some(now))
                        else was[k]
        decreases todo
      {
        var k :| k in todo;
        if rows[k].user == user && rows[k].consumedAt.None? {
          rows := rows[k := rows[k].(consumedAt := Some(now))];
        }
        todo := todo - {k};
      }
      rows := rows[id := Challenge(user, otp, 0, now + LIFETIME_MS, None, None, None, None)];
    }

    method VerifyCode(id: Id, otp: Id, token: Id, now: int) returns (ok: bool)
      modifies this
      ensures rows == Verified(old(rows), id, otp, token, now)
      ensures ok <==> id in old(rows) && Verifiable(old(rows)[id], now) && old(rows)[id].otp == otp
    {
      if id !in rows {
        return false;
      }
      var challenge := rows[id];
      if challenge.consumedAt.Some? || challenge.verifiedAt.Some? || challenge.expiresAt <= now ||
          challenge.attempts >= MAX_ATTEMPTS {
        return false;
      }
      if challenge.otp != otp {
        var locked := challenge.attempts + 1 >= MAX_ATTEMPTS;
        rows := rows[id := challenge.(attempts := challenge.attempts + 1,
            consumedAt := if locked then Some(now) else None)];
        return false;
      }
      rows := rows[id := challenge.(verifiedAt := Some(now), token := Some(token),
          tokenExpiresAt := Some(now + LIFETIME_MS))];
      return true;
    }

    method FindRunning(user: Id, now: int) returns (running: bool)
      ensures running <==> Busy(rows, user, now)
    {
      var todo := rows.Keys;
      while todo != {}
        invariant todo <= rows.Keys
        invariant forall k :: k in rows && k !in todo ==> !(rows[k].user == user && Running(rows[k], now))
        decreases todo
      {
        var k :| k in todo;
        if rows[k].user == user && Running(rows[k], now) {
          return true;
        }
        todo := todo - {k};
      }
      return false;
    }

    /** One transaction: the running claim, the claim, then the account's eligibility; a refusal
        leaves the row unspent. */
    method ClaimChallenge(id: Id, token: Id, eligible: bool, now: int) returns (ok: bool)
      modifies this
      ensures rows == Claims(old(rows), id, token, eligible, now)
      ensures ok <==> Claimable(old(rows), id, token, now) && eligible
    {
      if id !in rows {
        return false;
      }
      var running := FindRunning(rows[id].user, now);
      if running {
        return false;
      }
      var c := rows[id];
      if c.consumedAt.Some? || c.verifiedAt.None? || c.token != Some(token) || c.tokenExpiresAt.None? ||
          c.tokenExpiresAt.value <= now {
        return false;
      }
      if !eligible {
        return false;
      }
      rows := rows[id := c.(consumedAt := Some(now), tokenExpiresAt := None)];
      return true;
    }

    /** Claim, work at the issuer, settle. An issuer write left unclear keeps the claim to its lease. */
    method CompleteThroughIssuer(id: Id, token: Id, eligible: bool, now: int, unsettled: bool) returns (ok: bool)
      modifies this
      ensures ok <==> Claimable(old(rows), id, token, now) && eligible
      ensures rows == if ok && !unsettled then Settles(Claims(old(rows), id, token, eligible, now), id)
                      else Claims(old(rows), id, token, eligible, now)
      ensures ok ==> id in rows && rows[id].consumedAt == Some(now) && (rows[id].token.Some? <==> unsettled)
    {
      ok := ClaimChallenge(id, token, eligible, now);
      if ok && !unsettled {
        rows := rows[id := rows[id].(token := None)];
      }
    }
  }
}
