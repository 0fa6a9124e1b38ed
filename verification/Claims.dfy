/** Pending claims held in one pooled escrow wallet (orchestrator/src/lib/claims.ts). */
module Claims {
  import opened Text
  import opened Tables
  import opened Settings

  /** `payableAmount` on whole micro-USDC: what the escrow can pay now; it may be negative. */
  function Payable(want: nat, balance: nat, reserve: nat): int {
    Min(want, balance - reserve)
  }

  /** `ensureEscrowWallet`: the escrow account exists and is called Escrow. */
  function WithEscrow(c: Config, s: State): State {
    var t := s.WithUser(c.escrow);
    t.PutUser(c.escrow, t.users[c.escrow].(name := Some("Escrow")))
  }

  lemma EscrowUserOnly(c: Config, s: State)
    ensures var e := WithEscrow(c, s);
            e == s.(users := e.users) && s.users.Keys <= e.users.Keys && c.escrow in e.users
    ensures forall p | p != c.escrow && p in WithEscrow(c, s).users :: p in s.users && WithEscrow(c, s).users[p] == s.users[p]
  {
  }

  /** `assertCanOpenPendingClaim`. */
  predicate CanOpen(c: Config, s: State, now: nat, from: Phone) {
    ClaimsOpened(s.claims, from, DayOf(now)) < c.claimCap
  }

  /** `holdPendingClaim`: the tables afterwards and the id of the new claim; None when it threw. */
  function Hold(c: Config, s: State, now: nat, from: Phone, to: Phone, amount: nat, o: Outcome): (State, Option<nat>) {
    if !CanOpen(c, s, now, from) then (s, None)
    else
      var (t, ok) := WithEscrow(c, s).Transfer(from, WalletOf(c.escrow), amount, o);
      if !ok then (t, None)
      else
        var held := t.(claims := t.claims + [Claim(from, to, amount, Held, now + c.claimMs, now)]);
        (held.AddRow(LedgerRow(from, EscrowHold, amount, Some(to), now)), Some(|t.claims|))
  }

  // ----- payouts -----

  /** `markPendingClaim`: no guard on the old status. */
  function Mark(s: State, id: nat, status: ClaimStatus): State
    requires id < |s.claims|
  {
    s.(claims := s.claims[id := s.claims[id].(status := status)])
  }

  /** Pay one claim out of the escrow to `to`; an underfunded or failed payout leaves it held. */
  function PayOut(c: Config, s: State, now: nat, id: nat, to: Phone, from: Phone, status: ClaimStatus, kind: Kind, o: Outcome): (r: (State, bool))
    requires id < |s.claims|
    ensures |r.0.claims| == |s.claims|
  {
    var pay := Payable(s.claims[id].amount, s.Bal(c.escrow), c.reserve);
    if pay <= 0 then (s, false)
    else
      var (t, ok) := s.Transfer(c.escrow, WalletOf(to), pay, o);
      if !ok then (t, false)
      else (Mark(t, id, status).AddRow(LedgerRow(to, kind, pay, Some(from), now)), true)
  }

  /** Claims still held for a payee, oldest first (`listHeldClaimsForPayee`). */
  function HeldClaimsOf(claims: seq<Claim>, to: Phone): (ids: seq<nat>)
    ensures forall k | k in ids :: k < |claims| && claims[k].to == to && claims[k].status == Held
    ensures forall k | 0 <= k < |claims| && claims[k].to == to && claims[k].status == Held :: k in ids
    ensures forall i, j | 0 <= i < j < |ids| :: ids[i] < ids[j]
  {
    if |claims| == 0 then []
    else
      var n := |claims| - 1;
      var rest := HeldClaimsOf(claims[..n], to);
      assert forall i | 0 <= i < |rest| :: rest[i] in rest;
      rest + if claims[n].to == to && claims[n].status == Held then [n] else []
  }

  /** Held claims past their time (`listExpiredHeldClaims`). */
  function HeldPast(claims: seq<Claim>, now: nat): (ids: seq<nat>)
    ensures forall k | k in ids :: k < |claims| && claims[k].status == Held && claims[k].expires <= now
    ensures forall k | 0 <= k < |claims| && claims[k].status == Held && claims[k].expires <= now :: k in ids
    ensures forall i, j | 0 <= i < j < |ids| :: ids[i] < ids[j]
  {
    if |claims| == 0 then []
    else
      var n := |claims| - 1;
      var rest := HeldPast(claims[..n], now);
      assert forall i | 0 <= i < |rest| :: rest[i] in rest;
      rest + if claims[n].status == Held && claims[n].expires <= now then [n] else []
  }

  /** The outcome the chain gives the k-th payout attempt of a job. */
  function OutcomeAt(outcomes: seq<Outcome>, k: nat): Outcome {
    if k < |outcomes| then outcomes[k] else Threw(0)
  }

  /** A payout job: release what is held for a payee who joined, or refund what ran out. */
  datatype Job = Release(payee: Phone) | Refund

  /** One claim of a job.  A refund whose sender is unknown is written off. */
  function PayOne(c: Config, s: State, now: nat, id: nat, job: Job, o: Outcome): (r: (State, bool))
    requires id < |s.claims|
    ensures |r.0.claims| == |s.claims|
  {
    var k := s.claims[id];
    match job
    case Release(payee) => PayOut(c, s, now, id, payee, k.from, Claimed, EscrowClaim, o)
    case Refund =>
      if k.from !in s.users then (Mark(s, id, Expired), false)
      else PayOut(c, s, now, id, k.from, k.to, Refunded, EscrowRefund, o)
  }

  /** The loop of a job over the first n listed claims, with the number paid. */
  function PayMany(c: Config, s: State, now: nat, ids: seq<nat>, job: Job, outcomes: seq<Outcome>, n: nat): (r: (State, nat))
    requires n <= |ids| && forall k | k in ids :: k < |s.claims|
    ensures |r.0.claims| == |s.claims|
  {
    if n == 0 then (s, 0)
    else
      assert ids[n - 1] in ids;
      var (t, done) := PayMany(c, s, now, ids, job, outcomes, n - 1);
      var (u, ok) := PayOne(c, t, now, ids[n - 1], job, OutcomeAt(outcomes, n - 1));
      (u, done + if ok then 1 else 0)
  }

  lemma PayManyStep(c: Config, s: State, now: nat, ids: seq<nat>, job: Job, outcomes: seq<Outcome>, n: nat)
    requires 0 < n <= |ids| && forall k | k in ids :: k < |s.claims|
    ensures ids[n - 1] in ids
    ensures PayMany(c, s, now, ids, job, outcomes, n).0
         == PayOne(c, PayMany(c, s, now, ids, job, outcomes, n - 1).0, now, ids[n - 1], job, OutcomeAt(outcomes, n - 1)).0
  {
  }

  /** `fulfillPendingClaimsFor`. */
  function Fulfil(c: Config, s: State, now: nat, payee: Phone, outcomes: seq<Outcome>): (State, nat) {
    var ids := HeldClaimsOf(s.claims, payee);
    if ids == [] || payee !in s.users then (s, 0)
    else PayMany(c, WithEscrow(c, s), now, ids, Release(payee), outcomes, |ids|)
  }

  /** `expirePendingClaims`. */
  function Expire(c: Config, s: State, now: nat, outcomes: seq<Outcome>): (State, nat) {
    var ids := HeldPast(s.claims, now);
    PayMany(c, WithEscrow(c, s), now, ids, Refund, outcomes, |ids|)
  }

  // ----- the same operations on the desk -----

  method EnsureEscrowWallet(desk: Desk, c: Config)
    modifies desk
    ensures desk.Now() == WithEscrow(c, old(desk.Now()))
  {
    desk.EnsureWallet(c.escrow);
    desk.SetUser(c.escrow, desk.users[c.escrow].(name := Some("Escrow")));
  }

  method HoldPendingClaim(desk: Desk, c: Config, now: nat, from: Phone, to: Phone, amount: nat, o: Outcome) returns (id: Option<nat>)
    modifies desk
    ensures (desk.Now(), id) == Hold(c, old(desk.Now()), now, from, to, amount, o)
  {
    if ClaimsOpened(desk.claims, from, DayOf(now)) >= c.claimCap {
      return None;
    }
    EnsureEscrowWallet(desk, c);
    var ok := desk.TransferUsdc(from, WalletOf(c.escrow), amount, o);
    if !ok {
      return None;
    }
    id := Some(|desk.claims|);
    desk.claims := desk.claims + [Claim(from, to, amount, Held, now + c.claimMs, now)];
    desk.AddLedger(LedgerRow(from, EscrowHold, amount, Some(to), now));
  }

  method PayClaim(desk: Desk, c: Config, now: nat, id: nat, to: Phone, from: Phone, status: ClaimStatus, kind: Kind, o: Outcome) returns (ok: bool)
    requires id < |desk.claims|
    modifies desk
    ensures (desk.Now(), ok) == PayOut(c, old(desk.Now()), now, id, to, from, status, kind, o)
  {
    var pay := Payable(desk.claims[id].amount, desk.Now().Bal(c.escrow), c.reserve);
    if pay <= 0 {
      return false;
    }
    ok := desk.TransferUsdc(c.escrow, WalletOf(to), pay, o);
    if ok {
      desk.claims := desk.claims[id := desk.claims[id].(status := status)];
      desk.AddLedger(LedgerRow(to, kind, pay, Some(from), now));
    }
  }

  method PayNext(desk: Desk, c: Config, now: nat, id: nat, job: Job, o: Outcome) returns (ok: bool)
    requires id < |desk.claims|
    modifies desk
    ensures (desk.Now(), ok) == PayOne(c, old(desk.Now()), now, id, job, o)
  {
    var claim := desk.claims[id];
    match job {
      case Release(payee) =>
        ok := PayClaim(desk, c, now, id, payee, claim.from, Claimed, EscrowClaim, o);
      case Refund =>
        if claim.from !in desk.users {
          desk.claims := desk.claims[id := claim.(status := Expired)];
          return false;
        }
        ok := PayClaim(desk, c, now, id, claim.from, claim.to, Refunded, EscrowRefund, o);
    }
  }

  method PayAll(desk: Desk, c: Config, now: nat, ids: seq<nat>, job: Job, outcomes: seq<Outcome>) returns (n: nat)
    requires forall k | k in ids :: k < |desk.claims|
    modifies desk
    ensures (desk.Now(), n) == PayMany(c, old(desk.Now()), now, ids, job, outcomes, |ids|)
  {
    hide PayOne;
    n := 0;
    for i := 0 to |ids|
      invariant (desk.Now(), n) == PayMany(c, old(desk.Now()), now, ids, job, outcomes, i)
    {
      assert ids[i] in ids;
      var ok := PayNext(desk, c, now, ids[i], job, OutcomeAt(outcomes, i));
      if ok {
        n := n + 1;
      }
    }
  }

  method FulfillPendingClaimsFor(desk: Desk, c: Config, now: nat, payee: Phone, outcomes: seq<Outcome>) returns (n: nat)
    modifies desk
    ensures (desk.Now(), n) == Fulfil(c, old(desk.Now()), now, payee, outcomes)
  {
    var held := HeldClaimsOf(desk.claims, payee);
    if held == [] || payee !in desk.users {
      return 0;
    }
    EnsureEscrowWallet(desk, c);
    n := PayAll(desk, c, now, held, Release(payee), outcomes);
  }

  method ExpirePendingClaims(desk: Desk, c: Config, now: nat, outcomes: seq<Outcome>) returns (n: nat)
    modifies desk
    ensures (desk.Now(), n) == Expire(c, old(desk.Now()), now, outcomes)
  {
    var expired := HeldPast(desk.claims, now);
    EnsureEscrowWallet(desk, c);
    n := PayAll(desk, c, now, expired, Refund, outcomes);
  }
}
