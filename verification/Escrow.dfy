/** Conservation and solvency of the pooled escrow wallet (orchestrator/src/lib/claims.ts): one
    balance backs every held claim. */
module Escrow {
  import opened Text
  import opened Tables
  import opened Settings
  import opened Claims

  /** What the escrow owes: all claims still held. */
  function HeldSum(claims: seq<Claim>): nat {
    if |claims| == 0 then 0
    else
      var k := claims[|claims| - 1];
      HeldSum(claims[..|claims| - 1]) + if k.status == Held then k.amount else 0
  }

  /** What is left over once every held claim is covered; negative is a shortfall. */
  function Slack(c: Config, s: State): int {
    s.Bal(c.escrow) - HeldSum(s.claims)
  }

  lemma {:induction false} SettlingOneClaim(claims: seq<Claim>, id: nat, status: ClaimStatus)
    requires id < |claims| && claims[id].status == Held && status != Held
    ensures HeldSum(claims[id := claims[id].(status := status)]) == HeldSum(claims) - claims[id].amount
  {
    var n := |claims| - 1;
    var out := claims[id := claims[id].(status := status)];
    if id == n {
      assert out[..n] == claims[..n];
    } else {
      SettlingOneClaim(claims[..n], id, status);
      assert out[..n] == claims[..n][id := claims[id].(status := status)];
    }
  }

  lemma {:induction false} HeldIsOwed(claims: seq<Claim>, id: nat)
    requires id < |claims| && claims[id].status == Held
    ensures claims[id].amount <= HeldSum(claims)
  {
    if id < |claims| - 1 {
      HeldIsOwed(claims[..|claims| - 1], id);
    }
  }

  lemma OneMoreClaim(claims: seq<Claim>, k: Claim)
    ensures HeldSum(claims + [k]) == HeldSum(claims) + if k.status == Held then k.amount else 0
  {
    assert (claims + [k])[..|claims|] == claims;
  }

  // ----- one payout -----

  /** The attempt moves money out of the escrow, whether or not its caller hears of it. */
  predicate MovesMoney(c: Config, s: State, id: nat, o: Outcome)
    requires id < |s.claims|
  {
    var pay := Payable(s.claims[id].amount, s.Bal(c.escrow), c.reserve);
    pay > 0 && !o.Threw? && pay + o.fee <= s.Bal(c.escrow)
  }

  /** What the attempt moves out of the escrow. */
  function PaidOut(c: Config, s: State, id: nat, o: Outcome): nat
    requires id < |s.claims|
  {
    if MovesMoney(c, s, id, o) then Payable(s.claims[id].amount, s.Bal(c.escrow), c.reserve) else 0
  }

  /** Where money goes: gas that was burned, money moved by transfers that threw all the same, and money
      that stays behind because a payout was short or a hold arrived but threw. */
  datatype Stream = Burned | Leaked | Kept

  /** The gas a payout burns out of the escrow wallet. */
  function PayGas(c: Config, s: State, id: nat, o: Outcome): nat
    requires id < |s.claims|
  {
    if Payable(s.claims[id].amount, s.Bal(c.escrow), c.reserve) <= 0 then 0
    else if MovesMoney(c, s, id, o) then o.fee
    else Min(o.fee, s.Bal(c.escrow))
  }

  /** What one payout attempt adds to a stream. */
  function PayFlow(c: Config, s: State, id: nat, o: Outcome, part: Stream): nat
    requires id < |s.claims|
  {
    match part
    case Burned => PayGas(c, s, id, o)
    case Leaked => if o.LandedButThrew? then PaidOut(c, s, id, o) else 0
    case Kept => if o.Landed? && MovesMoney(c, s, id, o) then s.claims[id].amount - PaidOut(c, s, id, o) else 0
  }

  /** What the slack gains from an attempt. */
  function PayGain(c: Config, s: State, id: nat, o: Outcome): int
    requires id < |s.claims|
  {
    PayFlow(c, s, id, o, Kept) - PayFlow(c, s, id, o, Burned) - PayFlow(c, s, id, o, Leaked)
  }

  predicate Unambiguous(o: Outcome) {
    !o.LandedButThrew?
  }

  /** A payout within its reserve: amount and gas together never exceed the balance, so a transfer
      that lands is never refused for lack of funds. */
  lemma PayoutFitsTheBalance(c: Config, s: State, id: nat, o: Outcome)
    requires id < |s.claims| && o.fee <= c.reserve
    ensures var pay := Payable(s.claims[id].amount, s.Bal(c.escrow), c.reserve);
            pay > 0 ==> pay + o.fee <= s.Bal(c.escrow)
  {
  }

  /** One transfer between two accounts, to the last micro-dollar. */
  lemma TransferIsExact(s: State, from: Phone, to: Phone, amount: nat, o: Outcome)
    requires from in s.users && from != to
    ensures var (t, ok) := s.Transfer(from, WalletOf(to), amount, o);
            var lost := o.Threw? || amount + o.fee > s.Bal(from);
            && (ok <==> !lost && o.Landed?)
            && t.Bal(from) == s.Bal(from) - (if lost then Min(o.fee, s.Bal(from)) else amount + o.fee)
            && t.Bal(to) == s.Bal(to) + (if lost then 0 else amount)
            && (forall p | p != from :: t.Bal(p) >= s.Bal(p))
            && t == s.(balance := t.balance)
  {
    hide State.Credit, State.BalanceAt, WalletOf;
    var (t, ok) := s.Transfer(from, WalletOf(to), amount, o);
    if o.Threw? || amount + o.fee > s.Bal(from) {
      CreditIsExact(s, WalletOf(from), -Min(o.fee, s.Bal(from)));
    } else {
      CreditIsExact(s, WalletOf(from), -(amount + o.fee));
      CreditIsExact(s.Credit(WalletOf(from), -(amount + o.fee)), WalletOf(to), amount);
    }
    forall p | p != from ensures t.Bal(p) >= s.Bal(p) && WalletOf(p) != WalletOf(from) {
      WalletsDiffer(p, from);
    }
  }

  /** Marking the claim and booking the row once the money has moved. */
  lemma SettlingIsExact(c: Config, s: State, t: State, id: nat, status: ClaimStatus, pay: nat, row: LedgerRow)
    requires id < |s.claims| && s.claims[id].status == Held && status != Held && t == s.(balance := t.balance)
    ensures var u := Mark(t, id, status).AddRow(row);
            && Slack(c, u) == t.Bal(c.escrow) - HeldSum(s.claims) + s.claims[id].amount
            && u.claims == s.claims[id := s.claims[id].(status := status)] && u.ledger == s.ledger + [row]
            && u.users == s.users && forall p :: u.Bal(p) == t.Bal(p)
  {
    SettlingOneClaim(s.claims, id, status);
    var u := Mark(t, id, status).AddRow(row);
    assert u == t.(claims := u.claims, ledger := u.ledger);
  }

  /** Exactly what one payout attempt does.  If it settles, the claim leaves `Held`, the payee receives
      pay and a row books it; a transfer that threw although it moved the money leaves the claim held
      and the escrow poorer by pay; otherwise only gas is lost. */
  lemma PayOutIsExact(c: Config, s: State, now: nat, id: nat, to: Phone, from: Phone, status: ClaimStatus, kind: Kind, o: Outcome)
    requires id < |s.claims| && s.claims[id].status == Held && status != Held
    requires c.escrow in s.users && to != c.escrow
    ensures var (t, ok) := PayOut(c, s, now, id, to, from, status, kind, o);
            var pay := PaidOut(c, s, id, o);
            && Slack(c, t) == Slack(c, s) + PayGain(c, s, id, o)
            && t.claims == (if ok then s.claims[id := s.claims[id].(status := status)] else s.claims)
            && t.ledger == (if ok then s.ledger + [LedgerRow(to, kind, pay, Some(from), now)] else s.ledger)
            && (ok <==> MovesMoney(c, s, id, o) && o.Landed?)
            && t.Bal(to) == s.Bal(to) + pay
            && (forall p | p != c.escrow :: t.Bal(p) >= s.Bal(p))
            && t.users == s.users
  {
    hide State.Transfer, State.Bal, HeldSum;
    var want := s.claims[id].amount;
    var pay := Payable(want, s.Bal(c.escrow), c.reserve);
    if pay > 0 {
      var (t, ok) := s.Transfer(c.escrow, WalletOf(to), pay, o);
      TransferIsExact(s, c.escrow, to, pay, o);
      if ok {
        var row := LedgerRow(to, kind, pay, Some(from), now);
        SettlingIsExact(c, s, t, id, status, pay, row);
        assert PayOut(c, s, now, id, to, from, status, kind, o) == (Mark(t, id, status).AddRow(row), true);
      } else {
        assert PayOut(c, s, now, id, to, from, status, kind, o) == (t, false);
        assert Slack(c, t) == Slack(c, s) + t.Bal(c.escrow) - s.Bal(c.escrow);
      }
    }
  }

  // ----- a whole job -----

  /** The escrow exists and every claim was opened by a known person, as in every reachable state. */
  ghost predicate Grounded(c: Config, s: State) {
    forall k | 0 <= k < |s.claims| :: s.claims[k].from in s.users && s.claims[k].from != c.escrow
  }

  predicate PayeeIsPerson(c: Config, job: Job) {
    job.Release? ==> job.payee != c.escrow
  }

  predicate AllUnambiguous(outcomes: seq<Outcome>) {
    forall k | 0 <= k < |outcomes| :: Unambiguous(outcomes[k])
  }

  /** What the first n attempts of a job add to a stream. */
  function JobFlow(c: Config, s: State, now: nat, ids: seq<nat>, job: Job, outcomes: seq<Outcome>, n: nat, part: Stream): nat
    requires n <= |ids| && forall k | k in ids :: k < |s.claims|
  {
    if n == 0 then 0
    else
      assert ids[n - 1] in ids;
      JobFlow(c, s, now, ids, job, outcomes, n - 1, part)
      + PayFlow(c, PayMany(c, s, now, ids, job, outcomes, n - 1).0, ids[n - 1], OutcomeAt(outcomes, n - 1), part)
  }

  function JobGain(c: Config, s: State, now: nat, ids: seq<nat>, job: Job, outcomes: seq<Outcome>, n: nat): int
    requires n <= |ids| && forall k | k in ids :: k < |s.claims|
  {
    JobFlow(c, s, now, ids, job, outcomes, n, Kept) - JobFlow(c, s, now, ids, job, outcomes, n, Burned)
    - JobFlow(c, s, now, ids, job, outcomes, n, Leaked)
  }

  /** A list of distinct held claims, as the two listing queries return it. */
  ghost predicate Listed(claims: seq<Claim>, ids: seq<nat>) {
    && (forall k | k in ids :: k < |claims| && claims[k].status == Held)
    && (forall i, j | 0 <= i < j < |ids| :: ids[i] < ids[j])
  }

  /** How claim k can look after a payout pass: the same, or settled and otherwise the same. */
  predicate SameOrSettled(k: Claim, l: Claim) {
    k == l || (k.status == Held && (l.status == Claimed || l.status == Refunded) && l == k.(status := l.status))
  }

  /** The status a job settles to, and the row that books it. */
  function JobStatus(job: Job): ClaimStatus {
    if job.Release? then Claimed else Refunded
  }

  function JobRow(job: Job, k: Claim, pay: nat, now: nat): LedgerRow {
    if job.Release? then LedgerRow(job.payee, EscrowClaim, pay, Some(k.from), now)
    else LedgerRow(k.from, EscrowRefund, pay, Some(k.to), now)
  }

  predicate SettledBy(job: Job, k: Claim, l: Claim) {
    k == l || (k.status == Held && l == k.(status := JobStatus(job)))
  }

  /** One attempt of a job on a held claim: conservation, and what it leaves alone. */
  lemma PayOneIsExact(c: Config, s: State, now: nat, id: nat, job: Job, o: Outcome)
    requires id < |s.claims| && s.claims[id].status == Held
    requires c.escrow in s.users && Grounded(c, s) && PayeeIsPerson(c, job)
    ensures var (t, ok) := PayOne(c, s, now, id, job, o);
            var row := JobRow(job, s.claims[id], PaidOut(c, s, id, o), now);
            && Slack(c, t) == Slack(c, s) + PayGain(c, s, id, o)
            && (ok <==> MovesMoney(c, s, id, o) && o.Landed?)
            && (ok <==> t.claims[id].status != Held)
            && (forall k | 0 <= k < |s.claims| && k != id :: t.claims[k] == s.claims[k])
            && SettledBy(job, s.claims[id], t.claims[id])
            && t.ledger == (if ok then s.ledger + [row] else s.ledger)
            && t.Bal(row.phone) == s.Bal(row.phone) + PaidOut(c, s, id, o)
            && (forall p | p != c.escrow :: t.Bal(p) >= s.Bal(p))
            && t.users == s.users
  {
    hide PayOut, PayFlow, MovesMoney, PaidOut, Slack;
    var k := s.claims[id];
    if job.Release? {
      PayOutIsExact(c, s, now, id, job.payee, k.from, Claimed, EscrowClaim, o);
    } else {
      PayOutIsExact(c, s, now, id, k.from, k.to, Refunded, EscrowRefund, o);
    }
  }

  /** What a job pass keeps after its first n claims. */
  ghost predicate JobKeeps(job: Job, s: State, t: State, ids: seq<nat>, n: nat) {
    && |t.claims| == |s.claims| && n <= |ids|
    && t.users == s.users
    && (forall i | n <= i < |ids| && ids[i] < |s.claims| :: t.claims[ids[i]] == s.claims[ids[i]])
    && (forall k | 0 <= k < |s.claims| :: SettledBy(job, s.claims[k], t.claims[k]))
    && (forall k | 0 <= k < |s.claims| && k !in ids :: t.claims[k] == s.claims[k])
  }

  lemma JobKeepsNext(job: Job, s: State, t: State, u: State, ids: seq<nat>, n: nat)
    requires Listed(s.claims, ids) && n < |ids| && JobKeeps(job, s, t, ids, n)
    requires |u.claims| == |t.claims| && u.users == t.users
    requires ids[n] in ids && ids[n] < |s.claims|
    requires forall k | 0 <= k < |t.claims| && k != ids[n] :: u.claims[k] == t.claims[k]
    requires SettledBy(job, t.claims[ids[n]], u.claims[ids[n]])
    ensures JobKeeps(job, s, u, ids, n + 1)
  {
    assert t.claims[ids[n]] == s.claims[ids[n]];
    forall i | n + 1 <= i < |ids| && ids[i] < |s.claims|
      ensures u.claims[ids[i]] == s.claims[ids[i]]
    {
      assert ids[n] < ids[i];
    }
  }

  /** A job changes only the status of listed claims, whatever happens to its transfers. */
  lemma {:induction false} JobKeepsClaims(c: Config, s: State, now: nat, ids: seq<nat>, job: Job, outcomes: seq<Outcome>, n: nat)
    requires Listed(s.claims, ids) && n <= |ids|
    requires c.escrow in s.users && Grounded(c, s) && PayeeIsPerson(c, job)
    ensures JobKeeps(job, s, PayMany(c, s, now, ids, job, outcomes, n).0, ids, n)
  {
    if n > 0 {
      JobKeepsClaims(c, s, now, ids, job, outcomes, n - 1);
      PayManyStep(c, s, now, ids, job, outcomes, n);
      var t, u := PayMany(c, s, now, ids, job, outcomes, n - 1).0, PayMany(c, s, now, ids, job, outcomes, n).0;
      assert t.claims[ids[n - 1]] == s.claims[ids[n - 1]];
      GroundedKept(c, job, s, t, ids, n - 1);
      PayOneIsExact(c, t, now, ids[n - 1], job, OutcomeAt(outcomes, n - 1));
      JobKeepsNext(job, s, t, u, ids, n - 1);
    }
  }

  /** The state in which a job tries its n-th claim. */
  lemma JobReaches(c: Config, s: State, now: nat, ids: seq<nat>, job: Job, outcomes: seq<Outcome>, n: nat)
    requires Listed(s.claims, ids) && n < |ids|
    requires c.escrow in s.users && Grounded(c, s) && PayeeIsPerson(c, job)
    ensures ids[n] in ids
    ensures var (t, paid) := PayMany(c, s, now, ids, job, outcomes, n);
            var o := OutcomeAt(outcomes, n);
            && |t.claims| == |s.claims| && t.claims[ids[n]] == s.claims[ids[n]] && t.claims[ids[n]].status == Held
            && Grounded(c, t) && c.escrow in t.users
            && (AllUnambiguous(outcomes) ==> Unambiguous(o)) && (FreeOfGas(outcomes) ==> o.fee == 0)
            && PayMany(c, s, now, ids, job, outcomes, n + 1).0 == PayOne(c, t, now, ids[n], job, o).0
            && PayMany(c, s, now, ids, job, outcomes, n + 1).1 == paid + (if PayOne(c, t, now, ids[n], job, o).1 then 1 else 0)
            && JobGain(c, s, now, ids, job, outcomes, n + 1) == JobGain(c, s, now, ids, job, outcomes, n) + PayGain(c, t, ids[n], o)
            && forall part :: JobFlow(c, s, now, ids, job, outcomes, n + 1, part)
                           == JobFlow(c, s, now, ids, job, outcomes, n, part) + PayFlow(c, t, ids[n], o, part)
  {
    hide PayOne, PayFlow;
    JobKeepsClaims(c, s, now, ids, job, outcomes, n);
    var t := PayMany(c, s, now, ids, job, outcomes, n).0;
    GroundedKept(c, job, s, t, ids, n);
    assert ids[n] in ids;
  }

  /** Over the first n claims of a job the slack changes by exactly what flowed. */
  lemma {:induction false} JobConserves(c: Config, s: State, now: nat, ids: seq<nat>, job: Job, outcomes: seq<Outcome>, n: nat)
    requires Listed(s.claims, ids) && n <= |ids|
    requires c.escrow in s.users && Grounded(c, s) && PayeeIsPerson(c, job)
    ensures Slack(c, PayMany(c, s, now, ids, job, outcomes, n).0) == Slack(c, s) + JobGain(c, s, now, ids, job, outcomes, n)
  {
    hide Slack, PayOne, PayFlow;
    if n > 0 {
      JobConserves(c, s, now, ids, job, outcomes, n - 1);
      JobReaches(c, s, now, ids, job, outcomes, n - 1);
      PayOneIsExact(c, PayMany(c, s, now, ids, job, outcomes, n - 1).0, now, ids[n - 1], job, OutcomeAt(outcomes, n - 1));
    }
  }

  lemma GroundedKept(c: Config, job: Job, s: State, t: State, ids: seq<nat>, n: nat)
    requires Grounded(c, s) && JobKeeps(job, s, t, ids, n)
    ensures Grounded(c, t)
  {
    forall k | 0 <= k < |t.claims|
      ensures t.claims[k].from in t.users && t.claims[k].from != c.escrow
    {
      assert SettledBy(job, s.claims[k], t.claims[k]);
    }
  }

  /** A fulfil job settles only claims held for its payee, as claimed; an expiry job only held claims
      past their time, as refunded; every other claim is as it was. */
  lemma JobsSettleTheirOwnClaims(c: Config, s: State, now: nat, payee: Phone, outcomes: seq<Outcome>, k: nat)
    requires Grounded(c, s) && payee != c.escrow && k < |s.claims|
    ensures var l := Fulfil(c, s, now, payee, outcomes).0.claims;
            && |l| == |s.claims|
            && (l[k] == s.claims[k]
                || (s.claims[k].status == Held && s.claims[k].to == payee && l[k] == s.claims[k].(status := Claimed)))
    ensures var l := Expire(c, s, now, outcomes).0.claims;
            && |l| == |s.claims|
            && (l[k] == s.claims[k]
                || (s.claims[k].status == Held && s.claims[k].expires <= now && l[k] == s.claims[k].(status := Refunded)))
  {
    hide PayMany;
    var e, ids, past := WithEscrow(c, s), HeldClaimsOf(s.claims, payee), HeldPast(s.claims, now);
    EscrowUserChangesNothing(c, s);
    JobKeepsClaims(c, e, now, ids, Release(payee), outcomes, |ids|);
    JobKeepsClaims(c, e, now, past, Refund, outcomes, |past|);
    assert SettledBy(Release(payee), s.claims[k], PayMany(c, e, now, ids, Release(payee), outcomes, |ids|).0.claims[k]);
    assert SettledBy(Refund, s.claims[k], PayMany(c, e, now, past, Refund, outcomes, |past|).0.claims[k]);
  }

  // ----- sponsored gas -----

  predicate FreeOfGas(outcomes: seq<Outcome>) {
    forall k | 0 <= k < |outcomes| :: outcomes[k].fee == 0
  }

  /** A solvent escrow with no reserve pays a held claim in full. */
  lemma SolventPaysInFull(c: Config, s: State, id: nat)
    requires id < |s.claims| && s.claims[id].status == Held && c.reserve == 0 && Slack(c, s) >= 0
    ensures Payable(s.claims[id].amount, s.Bal(c.escrow), c.reserve) == s.claims[id].amount
  {
    HeldIsOwed(s.claims, id);
  }

  lemma SponsoredPayOne(c: Config, s: State, now: nat, id: nat, job: Job, o: Outcome)
    requires id < |s.claims| && s.claims[id].status == Held && c.reserve == 0 && Slack(c, s) >= 0
    requires c.escrow in s.users && Grounded(c, s) && PayeeIsPerson(c, job) && Unambiguous(o) && o.fee == 0
    ensures var (t, ok) := PayOne(c, s, now, id, job, o);
            && Slack(c, t) == Slack(c, s) && (forall part :: PayFlow(c, s, id, o, part) == 0)
            && (ok <==> o.Landed? && s.claims[id].amount > 0)
            && (ok <==> t.claims[id].status != Held)
            && (ok ==> PaidOut(c, s, id, o) == s.claims[id].amount)
  {
    hide PayOne, HeldSum, SettledBy, Grounded;
    PayOneIsExact(c, s, now, id, job, o);
    SolventPaysInFull(c, s, id);
  }

  lemma SponsoredNext(c: Config, s: State, now: nat, ids: seq<nat>, job: Job, outcomes: seq<Outcome>, n: nat)
    requires Listed(s.claims, ids) && n < |ids| && AllUnambiguous(outcomes) && FreeOfGas(outcomes)
    requires c.escrow in s.users && Grounded(c, s) && PayeeIsPerson(c, job) && c.reserve == 0
    requires Slack(c, PayMany(c, s, now, ids, job, outcomes, n).0) >= 0
    ensures Slack(c, PayMany(c, s, now, ids, job, outcomes, n + 1).0) == Slack(c, PayMany(c, s, now, ids, job, outcomes, n).0)
    ensures forall part :: JobFlow(c, s, now, ids, job, outcomes, n + 1, part) == JobFlow(c, s, now, ids, job, outcomes, n, part)
  {
    hide Slack, PayOne, PayFlow, PayMany, Grounded, JobFlow;
    JobReaches(c, s, now, ids, job, outcomes, n);
    SponsoredPayOne(c, PayMany(c, s, now, ids, job, outcomes, n).0, now, ids[n], job, OutcomeAt(outcomes, n));
  }

  /** With sponsored gas and transfers that land or fail, a job moves out of the escrow exactly what it
      settles. */
  lemma {:induction false} SponsoredJobIsExact(c: Config, s: State, now: nat, ids: seq<nat>, job: Job, outcomes: seq<Outcome>, n: nat)
    requires Listed(s.claims, ids) && n <= |ids| && AllUnambiguous(outcomes) && FreeOfGas(outcomes)
    requires c.escrow in s.users && Grounded(c, s) && PayeeIsPerson(c, job) && c.reserve == 0 && Slack(c, s) >= 0
    ensures Slack(c, PayMany(c, s, now, ids, job, outcomes, n).0) == Slack(c, s)
    ensures forall part :: JobFlow(c, s, now, ids, job, outcomes, n, part) == 0
  {
    hide Slack, PayOne, PayFlow, Grounded;
    if n > 0 {
      SponsoredJobIsExact(c, s, now, ids, job, outcomes, n - 1);
      SponsoredNext(c, s, now, ids, job, outcomes, n - 1);
    }
  }

  predicate AllLand(outcomes: seq<Outcome>, n: nat) {
    n <= |outcomes| && forall k | 0 <= k < n :: outcomes[k] == Landed(0)
  }

  /** The listed claims are worth something. */
  ghost predicate Worthwhile(claims: seq<Claim>, ids: seq<nat>) {
    forall k | k in ids :: k < |claims| && claims[k].amount > 0
  }

  /** When every transfer lands, the first n listed claims are no longer held. */
  lemma {:induction false} LandedJobSettles(c: Config, s: State, now: nat, ids: seq<nat>, job: Job, outcomes: seq<Outcome>, n: nat)
    requires Listed(s.claims, ids) && n <= |ids| && AllUnambiguous(outcomes) && FreeOfGas(outcomes) && AllLand(outcomes, n)
    requires c.escrow in s.users && Grounded(c, s) && PayeeIsPerson(c, job) && c.reserve == 0 && Slack(c, s) >= 0
    requires Worthwhile(s.claims, ids)
    ensures PayMany(c, s, now, ids, job, outcomes, n).1 == n
    ensures SettledUpTo(PayMany(c, s, now, ids, job, outcomes, n).0, ids, n)
  {
    hide HeldSum;
    if n == 0 {
      NothingToSettle(c, s, now, ids, job, outcomes);
    } else {
      LandedJobSettles(c, s, now, ids, job, outcomes, n - 1);
      SponsoredJobIsExact(c, s, now, ids, job, outcomes, n - 1);
      LandedNext(c, s, now, ids, job, outcomes, n - 1);
    }
  }

  /** The first n listed claims are settled. */
  ghost predicate SettledUpTo(t: State, ids: seq<nat>, n: nat) {
    n <= |ids| && forall i | 0 <= i < n :: ids[i] < |t.claims| && t.claims[ids[i]].status != Held
  }

  lemma NothingToSettle(c: Config, s: State, now: nat, ids: seq<nat>, job: Job, outcomes: seq<Outcome>)
    requires forall k | k in ids :: k < |s.claims|
    ensures PayMany(c, s, now, ids, job, outcomes, 0) == (s, 0) && SettledUpTo(s, ids, 0)
  {
  }

  lemma LandedNext(c: Config, s: State, now: nat, ids: seq<nat>, job: Job, outcomes: seq<Outcome>, n: nat)
    requires Listed(s.claims, ids) && n < |ids| && AllUnambiguous(outcomes) && FreeOfGas(outcomes) && AllLand(outcomes, n + 1)
    requires c.escrow in s.users && Grounded(c, s) && PayeeIsPerson(c, job) && c.reserve == 0
    requires Worthwhile(s.claims, ids)
    requires Slack(c, PayMany(c, s, now, ids, job, outcomes, n).0) >= 0
    requires SettledUpTo(PayMany(c, s, now, ids, job, outcomes, n).0, ids, n) && PayMany(c, s, now, ids, job, outcomes, n).1 == n
    ensures SettledUpTo(PayMany(c, s, now, ids, job, outcomes, n + 1).0, ids, n + 1)
    ensures PayMany(c, s, now, ids, job, outcomes, n + 1).1 == n + 1
  {
    JobReaches(c, s, now, ids, job, outcomes, n);
    var t := PayMany(c, s, now, ids, job, outcomes, n).0;
    var o := OutcomeAt(outcomes, n);
    SponsoredPayOne(c, t, now, ids[n], job, o);
    OthersStaySettled(c, t, now, ids, job, o, n);
  }

  lemma OthersStaySettled(c: Config, t: State, now: nat, ids: seq<nat>, job: Job, o: Outcome, n: nat)
    requires n < |ids| && (forall k | k in ids :: k < |t.claims|) && (forall i, j | 0 <= i < j < |ids| :: ids[i] < ids[j])
    requires ids[n] in ids && t.claims[ids[n]].status == Held
    requires c.escrow in t.users && Grounded(c, t) && PayeeIsPerson(c, job)
    requires SettledUpTo(t, ids, n)
    ensures SettledUpTo(PayOne(c, t, now, ids[n], job, o).0, ids, n)
  {
    PayOneIsExact(c, t, now, ids[n], job, o);
    var u := PayOne(c, t, now, ids[n], job, o).0;
    forall i | 0 <= i < n
      ensures ids[i] < |u.claims| && u.claims[ids[i]].status != Held
    {
      assert ids[i] < ids[n];
    }
  }

  lemma EscrowUserChangesNothing(c: Config, s: State)
    ensures var e := WithEscrow(c, s);
            && e == s.(users := e.users) && c.escrow in e.users && s.users.Keys <= e.users.Keys
            && (forall p | p != c.escrow :: p in e.users <==> p in s.users)
            && Slack(c, e) == Slack(c, s) && (Grounded(c, s) ==> Grounded(c, e)) && forall p :: e.Bal(p) == s.Bal(p)
  {
    hide HeldSum, WithEscrow;
    EscrowUserOnly(c, s);
  }

  /** Once a payee has set up a PIN and the transfers land, nothing is held for that phone any more,
      and the job reports how many claims it paid. */
  lemma NothingStaysHeld(c: Config, s: State, now: nat, payee: Phone, outcomes: seq<Outcome>)
    requires Grounded(c, s) && payee != c.escrow && payee in s.users && c.reserve == 0 && Slack(c, s) >= 0
    requires AllUnambiguous(outcomes) && FreeOfGas(outcomes) && AllLand(outcomes, |HeldClaimsOf(s.claims, payee)|)
    requires forall k | 0 <= k < |s.claims| :: s.claims[k].amount > 0
    ensures forall k | 0 <= k < |Fulfil(c, s, now, payee, outcomes).0.claims| ::
              Fulfil(c, s, now, payee, outcomes).0.claims[k].to == payee ==> Fulfil(c, s, now, payee, outcomes).0.claims[k].status != Held
    ensures Fulfil(c, s, now, payee, outcomes).1 == |HeldClaimsOf(s.claims, payee)|
  {
    var ids := HeldClaimsOf(s.claims, payee);
    if ids != [] {
      var e := WithEscrow(c, s);
      EscrowUserChangesNothing(c, s);
      LandedJobSettles(c, e, now, ids, Release(payee), outcomes, |ids|);
      JobKeepsClaims(c, e, now, ids, Release(payee), outcomes, |ids|);
      var t := PayMany(c, e, now, ids, Release(payee), outcomes, |ids|).0;
      forall k | 0 <= k < |t.claims| && t.claims[k].to == payee
        ensures t.claims[k].status != Held
      {
        assert SettledBy(Release(payee), s.claims[k], t.claims[k]);
        if s.claims[k].status == Held {
          assert k in ids;
        }
      }
    }
  }

  // ----- what a job books -----

  /** The ledger only grows, by one row for each claim paid, and nobody but the escrow loses money. */
  lemma {:induction false} JobOnlyAdds(c: Config, s: State, now: nat, ids: seq<nat>, job: Job, outcomes: seq<Outcome>, m: nat, n: nat)
    requires Listed(s.claims, ids) && m <= n <= |ids|
    requires c.escrow in s.users && Grounded(c, s) && PayeeIsPerson(c, job)
    ensures var (t, before), (u, after) := PayMany(c, s, now, ids, job, outcomes, m), PayMany(c, s, now, ids, job, outcomes, n);
            && t.ledger <= u.ledger && |u.ledger| - |t.ledger| == after - before
            && forall p | p != c.escrow :: t.Bal(p) <= u.Bal(p)
    decreases n
  {
    hide PayOne, PayFlow, Slack;
    if m < n {
      JobOnlyAdds(c, s, now, ids, job, outcomes, m, n - 1);
      JobReaches(c, s, now, ids, job, outcomes, n - 1);
      PayOneIsExact(c, PayMany(c, s, now, ids, job, outcomes, n - 1).0, now, ids[n - 1], job, OutcomeAt(outcomes, n - 1));
    }
  }

  /** Claim i of a job is as it was until its turn and as it is after its turn. */
  lemma {:induction false} TurnDecides(c: Config, s: State, now: nat, ids: seq<nat>, job: Job, outcomes: seq<Outcome>, i: nat, n: nat)
    requires Listed(s.claims, ids) && i < n <= |ids|
    requires c.escrow in s.users && Grounded(c, s) && PayeeIsPerson(c, job)
    ensures ids[i] in ids
    ensures PayMany(c, s, now, ids, job, outcomes, n).0.claims[ids[i]] == PayMany(c, s, now, ids, job, outcomes, i + 1).0.claims[ids[i]]
    decreases n
  {
    hide PayOne, PayFlow, Slack;
    assert ids[i] in ids;
    if i + 1 < n {
      TurnDecides(c, s, now, ids, job, outcomes, i, n - 1);
      JobReaches(c, s, now, ids, job, outcomes, n - 1);
      assert ids[i] < ids[n - 1];
      PayOneIsExact(c, PayMany(c, s, now, ids, job, outcomes, n - 1).0, now, ids[n - 1], job, OutcomeAt(outcomes, n - 1));
    }
  }

  /** What claim i of a job is paid when its turn comes. */
  function TurnPay(c: Config, s: State, now: nat, ids: seq<nat>, job: Job, outcomes: seq<Outcome>, i: nat): nat
    requires i < |ids| && forall k | k in ids :: k < |s.claims|
  {
    assert ids[i] in ids;
    PaidOut(c, PayMany(c, s, now, ids, job, outcomes, i).0, ids[i], OutcomeAt(outcomes, i))
  }

  /** A claim that a job settles has its own row, right after the rows of the claims paid before it, and
      its payee has received what the row says. */
  lemma SettledClaimsAreBooked(c: Config, s: State, now: nat, ids: seq<nat>, job: Job, outcomes: seq<Outcome>, i: nat)
    requires Listed(s.claims, ids) && i < |ids|
    requires c.escrow in s.users && Grounded(c, s) && PayeeIsPerson(c, job)
    requires ids[i] < |s.claims| && PayMany(c, s, now, ids, job, outcomes, |ids|).0.claims[ids[i]].status != Held
    ensures var t := PayMany(c, s, now, ids, job, outcomes, |ids|).0;
            var row := JobRow(job, s.claims[ids[i]], TurnPay(c, s, now, ids, job, outcomes, i), now);
            var r := |s.ledger| + PayMany(c, s, now, ids, job, outcomes, i).1;
            && r < |t.ledger| && t.ledger[r] == row && s.ledger <= t.ledger
            && t.Bal(row.phone) >= s.Bal(row.phone) + row.amount
    ensures MovesMoney(c, PayMany(c, s, now, ids, job, outcomes, i).0, ids[i], OutcomeAt(outcomes, i))
  {
    hide PayOne, PayFlow, Slack, MovesMoney, PaidOut;
    TurnDecides(c, s, now, ids, job, outcomes, i, |ids|);
    JobReaches(c, s, now, ids, job, outcomes, i);
    PayOneIsExact(c, PayMany(c, s, now, ids, job, outcomes, i).0, now, ids[i], job, OutcomeAt(outcomes, i));
    JobOnlyAdds(c, s, now, ids, job, outcomes, 0, i);
    JobOnlyAdds(c, s, now, ids, job, outcomes, i + 1, |ids|);
    RowPhoneIsPerson(c, s, job, ids[i]);
  }

  lemma RowPhoneIsPerson(c: Config, s: State, job: Job, id: nat)
    requires id < |s.claims| && Grounded(c, s) && PayeeIsPerson(c, job)
    ensures forall pay, now :: JobRow(job, s.claims[id], pay, now).phone != c.escrow
  {
  }

  /** What a held claim is paid at its turn is at least its amount, less the reserve and the shortfall of
      that moment, which is what has flowed out in excess since a solvent start. */
  lemma TurnPaysEnough(c: Config, s: State, now: nat, ids: seq<nat>, job: Job, outcomes: seq<Outcome>, i: nat)
    requires Listed(s.claims, ids) && i < |ids|
    requires c.escrow in s.users && Grounded(c, s) && PayeeIsPerson(c, job)
    requires ids[i] < |s.claims| && MovesMoney(c, PayMany(c, s, now, ids, job, outcomes, i).0, ids[i], OutcomeAt(outcomes, i))
    ensures var want, pay := s.claims[ids[i]].amount, TurnPay(c, s, now, ids, job, outcomes, i);
            pay <= want && pay >= Min(want, want - c.reserve + Slack(c, s) + JobGain(c, s, now, ids, job, outcomes, i))
  {
    hide PayOne, PayFlow, HeldSum;
    JobReaches(c, s, now, ids, job, outcomes, i);
    JobConserves(c, s, now, ids, job, outcomes, i);
    HeldIsOwed(PayMany(c, s, now, ids, job, outcomes, i).0.claims, ids[i]);
  }

  // ----- runs of holds and payouts -----

  /** An operation on the escrow. */
  datatype Op =
    | Open(now: nat, from: Phone, to: Phone, amount: nat, o: Outcome)
    | PayTo(now: nat, payee: Phone, outcomes: seq<Outcome>)
    | Sweep(now: nat, outcomes: seq<Outcome>)

  function Operate(c: Config, s: State, op: Op): State {
    match op
    case Open(now, from, to, amount, o) => Hold(c, s, now, from, to, amount, o).0
    case PayTo(now, payee, outcomes) => Fulfil(c, s, now, payee, outcomes).0
    case Sweep(now, outcomes) => Expire(c, s, now, outcomes).0
  }

  /** The claims a payout operation tries, in order. */
  function Listing(s: State, op: Op): (ids: seq<nat>)
    ensures Listed(s.claims, ids)
  {
    match op
    case Open(_, _, _, _, _) => []
    case PayTo(_, payee, _) => if payee in s.users then HeldClaimsOf(s.claims, payee) else []
    case Sweep(now, _) => HeldPast(s.claims, now)
  }

  function JobOf(op: Op): Job {
    if op.PayTo? then Release(op.payee) else Refund
  }

  function OutcomesOf(op: Op): seq<Outcome> {
    if op.Open? then [] else op.outcomes
  }

  /** What an operation does is its job. */
  lemma OperationIsItsJob(c: Config, s: State, op: Op)
    requires !op.Open?
    ensures var ids := Listing(s, op);
            || Operate(c, s, op) == PayMany(c, WithEscrow(c, s), op.now, ids, JobOf(op), OutcomesOf(op), |ids|).0
            || (ids == [] && Operate(c, s, op) == s)
  {
    hide PayMany, WithEscrow;
  }

  /** A hold whose money arrived although the transfer threw: nothing is owed for it. */
  function Windfall(c: Config, s: State, op: Op): nat
    requires op.Open?
  {
    if CanOpen(c, s, op.now, op.from) && op.from in s.users && op.o.LandedButThrew? && op.amount + op.o.fee <= s.Bal(op.from)
    then op.amount else 0
  }

  /** What one operation adds to a stream. */
  function OpFlow(c: Config, s: State, op: Op, part: Stream): nat {
    if op.Open? then if part.Kept? then Windfall(c, s, op) else 0
    else
      var ids := Listing(s, op);
      JobFlow(c, WithEscrow(c, s), op.now, ids, JobOf(op), OutcomesOf(op), |ids|, part)
  }

  function OpGain(c: Config, s: State, op: Op): int {
    OpFlow(c, s, op, Kept) - OpFlow(c, s, op, Burned) - OpFlow(c, s, op, Leaked)
  }

  /** People act, not the escrow itself. */
  predicate ByPeople(c: Config, op: Op) {
    match op
    case Open(_, from, _, _, _) => from != c.escrow
    case PayTo(_, payee, _) => payee != c.escrow
    case Sweep(_, _) => true
  }

  /** Transfers land or fail, but do not do both. */
  predicate ClearOp(op: Op) {
    if op.Open? then Unambiguous(op.o) else AllUnambiguous(op.outcomes)
  }

  predicate FreeOp(op: Op) {
    op.Open? || FreeOfGas(op.outcomes)
  }

  /** A hold adds one claim and one ledger row, or nothing. */
  lemma HoldAddsOneClaim(c: Config, s: State, now: nat, from: Phone, to: Phone, amount: nat, o: Outcome)
    requires from != c.escrow && Grounded(c, s)
    ensures var (t, id) := Hold(c, s, now, from, to, amount, o);
            && t.claims == (if id.Some? then s.claims + [Claim(from, to, amount, Held, now + c.claimMs, now)] else s.claims)
            && t.ledger == (if id.Some? then s.ledger + [LedgerRow(from, EscrowHold, amount, Some(to), now)] else s.ledger)
            && (id.Some? ==> CanOpen(c, s, now, from) && from in s.users)
            && s.users.Keys <= t.users.Keys && Grounded(c, t)
  {
    hide State.Transfer, WithEscrow, ClaimsOpened;
    if CanOpen(c, s, now, from) {
      var e := WithEscrow(c, s);
      EscrowUserChangesNothing(c, s);
      var (u, ok) := e.Transfer(from, WalletOf(c.escrow), amount, o);
      TransferShape(e, from, WalletOf(c.escrow), amount, o);
    }
  }

  /** A hold keeps the slack, or raises it if the money arrived but the transfer threw. */
  lemma HoldKeepsSlack(c: Config, s: State, op: Op)
    requires op.Open? && op.from != c.escrow && Grounded(c, s)
    ensures Slack(c, Operate(c, s, op)) == Slack(c, s) + OpGain(c, s, op)
    ensures Slack(c, Operate(c, s, op)) >= Slack(c, s)
  {
    hide HeldSum, State.Transfer, State.Bal, ClaimsOpened, WithEscrow, Grounded;
    if CanOpen(c, s, op.now, op.from) {
      var e := WithEscrow(c, s);
      EscrowUserChangesNothing(c, s);
      var t := Operate(c, s, op);
      if op.from in e.users {
        TransferIsExact(e, op.from, c.escrow, op.amount, op.o);
        var (u, ok) := e.Transfer(op.from, WalletOf(c.escrow), op.amount, op.o);
        OpenedSlack(c, e, u, t, op, ok);
      } else {
        StrangersMoveNothing(e, op.from, WalletOf(c.escrow), op.amount, op.o);
        assert t == e;
      }
    }
  }

  /** The claim that a hold adds owes what has just arrived. */
  lemma OpenedSlack(c: Config, e: State, u: State, t: State, op: Op, ok: bool)
    requires op.Open? && u == e.(balance := u.balance) && t.balance == u.balance
    requires t.claims == if ok then e.claims + [Claim(op.from, op.to, op.amount, Held, op.now + c.claimMs, op.now)] else e.claims
    ensures Slack(c, t) == Slack(c, e) + u.Bal(c.escrow) - e.Bal(c.escrow) - if ok then op.amount else 0
  {
    OneMoreClaim(e.claims, Claim(op.from, op.to, op.amount, Held, op.now + c.claimMs, op.now));
    assert t.Bal(c.escrow) == u.Bal(c.escrow);
  }

  lemma StrangersMoveNothing(s: State, from: Phone, to: string, amount: nat, o: Outcome)
    requires from !in s.users
    ensures s.Transfer(from, to, amount, o) == (s, false)
  {
  }

  /** One operation changes the slack by exactly what flowed; with sponsored gas, transfers that land or
      fail and a solvent start nothing flows. */
  lemma OperationConserves(c: Config, s: State, op: Op)
    requires Grounded(c, s) && ByPeople(c, op)
    ensures var t := Operate(c, s, op);
            && Grounded(c, t) && Slack(c, t) == Slack(c, s) + OpGain(c, s, op)
            && (ClearOp(op) ==> OpFlow(c, s, op, Leaked) == 0)
            && (FreeOp(op) && ClearOp(op) && c.reserve == 0 && Slack(c, s) >= 0 ==> forall part :: OpFlow(c, s, op, part) == 0)
  {
    hide Operate, PayMany, HeldSum, Slack, Hold, OpFlow, OpGain;
    if op.Open? {
      OpeningConserves(c, s, op);
    } else {
      JobOperationConserves(c, s, op);
    }
  }

  lemma OpeningConserves(c: Config, s: State, op: Op)
    requires Grounded(c, s) && ByPeople(c, op) && op.Open?
    ensures var t := Operate(c, s, op);
            && Grounded(c, t) && Slack(c, t) == Slack(c, s) + OpGain(c, s, op)
            && OpFlow(c, s, op, Leaked) == 0 && (ClearOp(op) ==> forall part :: OpFlow(c, s, op, part) == 0)
  {
    hide Operate, HeldSum, Slack, Hold, ClaimsOpened, State.Bal;
    HoldKeepsSlack(c, s, op);
    HoldAddsOneClaim(c, s, op.now, op.from, op.to, op.amount, op.o);
    OpeningIsAHold(c, s, op);
  }

  lemma OpeningIsAHold(c: Config, s: State, op: Op)
    requires op.Open?
    ensures Operate(c, s, op) == Hold(c, s, op.now, op.from, op.to, op.amount, op.o).0
  {
  }

  lemma JobOperationConserves(c: Config, s: State, op: Op)
    requires Grounded(c, s) && ByPeople(c, op) && !op.Open?
    ensures var t := Operate(c, s, op);
            && Grounded(c, t) && Slack(c, t) == Slack(c, s) + OpGain(c, s, op)
            && (ClearOp(op) ==> OpFlow(c, s, op, Leaked) == 0)
            && (FreeOp(op) && ClearOp(op) && c.reserve == 0 && Slack(c, s) >= 0 ==> forall part :: OpFlow(c, s, op, part) == 0)
  {
    hide Operate, PayMany, HeldSum, Slack, Grounded, JobFlow, WithEscrow;
    var e, ids := WithEscrow(c, s), Listing(s, op);
    EscrowUserChangesNothing(c, s);
    OperationIsItsJob(c, s, op);
    JobKeepsClaims(c, e, op.now, ids, JobOf(op), op.outcomes, |ids|);
    JobConserves(c, e, op.now, ids, JobOf(op), op.outcomes, |ids|);
    GroundedKept(c, JobOf(op), e, PayMany(c, e, op.now, ids, JobOf(op), op.outcomes, |ids|).0, ids, |ids|);
    if ids == [] {
      EmptyJob(c, e, op.now, ids, JobOf(op), op.outcomes);
    }
    if ClearOp(op) {
      ClearJobsDoNotLeak(c, e, op.now, ids, JobOf(op), op.outcomes, |ids|);
      if FreeOp(op) && c.reserve == 0 && Slack(c, s) >= 0 {
        SponsoredJobIsExact(c, e, op.now, ids, JobOf(op), op.outcomes, |ids|);
      }
    }
  }

  lemma EmptyJob(c: Config, s: State, now: nat, ids: seq<nat>, job: Job, outcomes: seq<Outcome>)
    requires ids == []
    ensures PayMany(c, s, now, ids, job, outcomes, |ids|) == (s, 0) && forall part :: JobFlow(c, s, now, ids, job, outcomes, |ids|, part) == 0
  {
  }

  lemma {:induction false} ClearJobsDoNotLeak(c: Config, s: State, now: nat, ids: seq<nat>, job: Job, outcomes: seq<Outcome>, n: nat)
    requires n <= |ids| && (forall k | k in ids :: k < |s.claims|) && AllUnambiguous(outcomes)
    ensures JobFlow(c, s, now, ids, job, outcomes, n, Leaked) == 0
  {
    if n > 0 {
      ClearJobsDoNotLeak(c, s, now, ids, job, outcomes, n - 1);
      assert ids[n - 1] in ids;
    }
  }

  ghost predicate Operates(c: Config, ops: seq<Op>, t: seq<State>, k: nat)
    requires k < |ops| && |t| == |ops| + 1
  {
    ByPeople(c, ops[k]) && t[k + 1] == Operate(c, t[k], ops[k])
  }

  /** Operations on the escrow, in any order, and the states between them, from a solvent one on. */
  ghost predicate EscrowRun(c: Config, ops: seq<Op>, t: seq<State>) {
    && |t| == |ops| + 1 && Grounded(c, t[0]) && Slack(c, t[0]) >= 0
    && forall k {:trigger Operates(c, ops, t, k)} | 0 <= k < |ops| :: Operates(c, ops, t, k)
  }

  /** What the first k operations added to a stream. */
  function Flowed(c: Config, ops: seq<Op>, t: seq<State>, k: nat, part: Stream): nat
    requires k <= |ops| && |t| == |ops| + 1
  {
    if k == 0 then 0 else Flowed(c, ops, t, k - 1, part) + OpFlow(c, t[k - 1], ops[k - 1], part)
  }

  ghost predicate AllClearOps(ops: seq<Op>) {
    forall k | 0 <= k < |ops| :: ClearOp(ops[k])
  }

  ghost predicate AllSponsored(c: Config, ops: seq<Op>) {
    c.reserve == 0 && AllClearOps(ops) && forall k | 0 <= k < |ops| :: FreeOp(ops[k])
  }

  /** Conservation over every run of holds, fulfil jobs and expiry jobs, in any order and however their
      transfers end: the escrow's balance minus its held claims changes by exactly what stayed behind
      less the gas and what leaked through transfers that threw after moving the money.  If transfers
      land or fail, nothing leaks; if gas is sponsored too, nothing changes at all. */
  lemma {:induction false} EscrowConserves(c: Config, ops: seq<Op>, t: seq<State>, k: nat)
    requires EscrowRun(c, ops, t) && k <= |ops|
    ensures Grounded(c, t[k])
    ensures Slack(c, t[k]) == Slack(c, t[0]) + Flowed(c, ops, t, k, Kept) - Flowed(c, ops, t, k, Burned) - Flowed(c, ops, t, k, Leaked)
    ensures AllClearOps(ops) ==> Flowed(c, ops, t, k, Leaked) == 0
    ensures AllSponsored(c, ops) ==> forall part :: Flowed(c, ops, t, k, part) == 0
  {
    hide Operate, OpFlow, Slack, Grounded, ByPeople, ClearOp, FreeOp;
    if k > 0 {
      EscrowConserves(c, ops, t, k - 1);
      assert Operates(c, ops, t, k - 1);
      StartIsSolvent(c, ops, t);
      OperationConserves(c, t[k - 1], ops[k - 1]);
    }
  }

  lemma StartIsSolvent(c: Config, ops: seq<Op>, t: seq<State>)
    requires EscrowRun(c, ops, t)
    ensures Slack(c, t[0]) >= 0
  {
  }

  /** Only payout operations settle claims, and only listed ones. */
  lemma OnlyJobsSettle(c: Config, s: State, op: Op, id: nat) returns (n: nat)
    requires Grounded(c, s) && ByPeople(c, op) && id < |s.claims| && s.claims[id].status == Held
    requires id < |Operate(c, s, op).claims| && Operate(c, s, op).claims[id].status != Held
    ensures !op.Open? && n < |Listing(s, op)| && Listing(s, op)[n] == id
    ensures var ids := Listing(s, op);
            Operate(c, s, op) == PayMany(c, WithEscrow(c, s), op.now, ids, JobOf(op), OutcomesOf(op), |ids|).0
  {
    hide Operate, PayMany, Hold, HeldSum;
    if op.Open? {
      OpeningIsAHold(c, s, op);
      HoldAddsOneClaim(c, s, op.now, op.from, op.to, op.amount, op.o);
      assert false;
    } else {
      var e, ids := WithEscrow(c, s), Listing(s, op);
      EscrowUserChangesNothing(c, s);
      OperationIsItsJob(c, s, op);
      JobKeepsClaims(c, e, op.now, ids, JobOf(op), op.outcomes, |ids|);
      assert id in ids;
      n :| 0 <= n < |ids| && ids[n] == id;
    }
  }

  /** What was added to a stream before the n-th attempt of operation k. */
  function FlowedUpTo(c: Config, ops: seq<Op>, t: seq<State>, k: nat, n: nat, part: Stream): nat
    requires k < |ops| && |t| == |ops| + 1 && n <= |Listing(t[k], ops[k])|
  {
    Flowed(c, ops, t, k, part)
    + JobFlow(c, WithEscrow(c, t[k]), ops[k].now, Listing(t[k], ops[k]), JobOf(ops[k]), OutcomesOf(ops[k]), n, part)
  }

  /** Every settled claim has its row and its money: when an operation settles a claim, a new ledger row
      books the payout, the payee's wallet has grown by it, and it is at least the amount less the
      reserve, less all gas burned and all money leaked before it; with sponsored gas and transfers that
      land or fail it is exactly the amount. */
  lemma SettledClaimsGetTheirMoney(c: Config, ops: seq<Op>, t: seq<State>, k: nat, id: nat) returns (n: nat, r: nat)
    requires EscrowRun(c, ops, t) && k < |ops| && id < |t[k].claims| && t[k].claims[id].status == Held
    requires id < |t[k + 1].claims| && t[k + 1].claims[id].status != Held
    ensures !ops[k].Open? && n < |Listing(t[k], ops[k])| && Listing(t[k], ops[k])[n] == id
    ensures |t[k].ledger| <= r < |t[k + 1].ledger|
    ensures var row, want := t[k + 1].ledger[r], t[k].claims[id].amount;
            && row == JobRow(JobOf(ops[k]), t[k].claims[id], row.amount, ops[k].now)
            && t[k + 1].Bal(row.phone) >= t[k].Bal(row.phone) + row.amount
            && want >= row.amount >= want - c.reserve - FlowedUpTo(c, ops, t, k, n, Burned) - FlowedUpTo(c, ops, t, k, n, Leaked)
            && (AllSponsored(c, ops) ==> row.amount == want)
  {
    hide Operate, OpFlow, PayMany, JobFlow, HeldSum, Slack, Grounded, MovesMoney;
    assert Operates(c, ops, t, k);
    EscrowConserves(c, ops, t, k);
    StartIsSolvent(c, ops, t);
    n := OnlyJobsSettle(c, t[k], ops[k], id);
    var s, e, ids, job, outcomes := t[k], WithEscrow(c, t[k]), Listing(t[k], ops[k]), JobOf(ops[k]), OutcomesOf(ops[k]);
    EscrowUserChangesNothing(c, s);
    SettledClaimsAreBooked(c, e, ops[k].now, ids, job, outcomes, n);
    TurnPaysEnough(c, e, ops[k].now, ids, job, outcomes, n);
    r := |s.ledger| + PayMany(c, e, ops[k].now, ids, job, outcomes, n).1;
    SameBalances(c, s);
    if AllSponsored(c, ops) {
      assert FreeOp(ops[k]) && ClearOp(ops[k]);
      SponsoredJobIsExact(c, e, ops[k].now, ids, job, outcomes, n);
    }
  }

  lemma SameBalances(c: Config, s: State)
    ensures WithEscrow(c, s).ledger == s.ledger && forall p :: WithEscrow(c, s).Bal(p) == s.Bal(p)
  {
  }
}
