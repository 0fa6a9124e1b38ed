/** Double entry over whole runs.  What a phone has in its wallet is what was deposited, plus what the
    ledger says it received, minus what the ledger says it spent, but for money that moves past the
    ledger: gas, transfers that throw although they landed, charges that never come back, and receipts
    that have no row. */
module Accounts {
  import opened Text
  import opened Tables
  import opened Settings
  import opened Payees
  import opened Pipeline
  import opened Frames
  import opened Runs
  import opened Effects
  import opened Steps
  import opened Safety
  import opened Claims
  import opened Escrow
  import opened Payments
  import opened ClaimRuns
  import Channels

  /** What a ledger row says about p's balance. */
  function Value(r: LedgerRow, p: Phone): int {
    var amount: int := r.amount;
    if r.phone != p || Neutral(r.kind) then 0
    else if Outflow(r.kind) then -amount
    else amount
  }

  function Net(rows: seq<LedgerRow>, p: Phone): int {
    if |rows| == 0 then 0 else Net(rows[..|rows| - 1], p) + Value(rows[|rows| - 1], p)
  }

  lemma NetOfOne(rows: seq<LedgerRow>, r: LedgerRow, p: Phone)
    ensures Net(rows + [r], p) == Net(rows, p) + Value(r, p)
  {
    assert (rows + [r])[..|rows + [r]| - 1] == rows;
  }

  lemma {:induction false} NetOfNeutral(rows: seq<LedgerRow>, more: seq<LedgerRow>, p: Phone)
    requires forall i | 0 <= i < |more| :: Neutral(more[i].kind)
    ensures Net(rows + more, p) == Net(rows, p)
  {
    if more == [] {
      assert rows + more == rows;
    } else {
      NetOfNeutral(rows, more[..|more| - 1], p);
      NetOfOne(rows + more[..|more| - 1], more[|more| - 1], p);
      assert rows + more == rows + more[..|more| - 1] + [more[|more| - 1]];
    }
  }

  /** Balance and ledger of p moved together, but for what moved past the ledger. */
  ghost predicate Agrees(s: State, t: State, p: Phone, off: int) {
    t.Bal(p) - s.Bal(p) == Net(t.ledger, p) - Net(s.ledger, p) + off
  }

  lemma AgreesChain(s: State, t: State, u: State, p: Phone, off: int, more: int)
    requires Agrees(s, t, p, off) && Agrees(t, u, p, more)
    ensures Agrees(s, u, p, off + more)
  {
  }

  lemma SameMoney(s: State, t: State, p: Phone)
    requires t.balance == s.balance && t.ledger == s.ledger
    ensures t.Bal(p) == s.Bal(p) && Net(t.ledger, p) == Net(s.ledger, p)
  {
  }

  lemma SameBalance(s: State, t: State)
    requires t.balance == s.balance
    ensures forall p :: t.Bal(p) == s.Bal(p)
  {
  }

  // ----- one transfer -----

  /** The gas that a transfer of a known sender burns. */
  function Burnt(s: State, from: Phone, amount: nat, o: Outcome): nat {
    if Fails(s, from, amount, o) then Gas(s, from, o) else o.fee
  }

  /** What it moves, whether or not its caller hears of it. */
  function MovedBy(s: State, from: Phone, amount: nat, o: Outcome): nat {
    if Fails(s, from, amount, o) then 0 else amount
  }

  lemma TransferMoves(s: State, from: Phone, to: string, amount: nat, o: Outcome, p: Phone)
    requires from in s.users
    ensures var (t, ok) := s.Transfer(from, to, amount, o);
            var moved := MovedBy(s, from, amount, o);
            && t == s.(balance := t.balance) && (ok <==> !Fails(s, from, amount, o) && o.Landed?)
            && t.Bal(p) == s.Bal(p) - (if p == from then moved + Burnt(s, from, amount, o) else 0) + (if to == WalletOf(p) then moved else 0)
  {
    hide State.Credit, State.BalanceAt, WalletOf;
    TransferShape(s, from, to, amount, o);
    if p != from {
      WalletsDiffer(p, from);
    }
    if Fails(s, from, amount, o) {
      CreditIsExact(s, WalletOf(from), -Min(o.fee, s.Bal(from)));
    } else {
      CreditIsExact(s, WalletOf(from), -(amount + o.fee));
      CreditIsExact(s.Credit(WalletOf(from), -(amount + o.fee)), to, amount);
    }
  }

  // ----- payouts -----

  function PayeeOf(job: Job, k: Claim): Phone {
    if job.Release? then job.payee else k.from
  }

  /** What p finds in its wallet without a row: a payout that threw although it landed. */
  function PayFound(c: Config, s: State, id: nat, job: Job, o: Outcome, p: Phone): nat
    requires id < |s.claims|
  {
    if o.LandedButThrew? && PayeeOf(job, s.claims[id]) == p && (job.Release? || p in s.users) then PaidOut(c, s, id, o) else 0
  }

  function JobFound(c: Config, s: State, now: nat, ids: seq<nat>, job: Job, outcomes: seq<Outcome>, n: nat, p: Phone): nat
    requires n <= |ids| && forall k | k in ids :: k < |s.claims|
  {
    if n == 0 then 0
    else
      assert ids[n - 1] in ids;
      JobFound(c, s, now, ids, job, outcomes, n - 1, p)
      + PayFound(c, PayMany(c, s, now, ids, job, outcomes, n - 1).0, ids[n - 1], job, OutcomeAt(outcomes, n - 1), p)
  }

  function OpFound(c: Config, s: State, op: Op, p: Phone): nat {
    var ids := Listing(s, op);
    JobFound(c, WithEscrow(c, s), op.now, ids, JobOf(op), OutcomesOf(op), |ids|, p)
  }

  lemma PayOutShape(c: Config, s: State, now: nat, id: nat, to: Phone, from: Phone, status: ClaimStatus, kind: Kind, o: Outcome)
    requires id < |s.claims|
    ensures var pay := Payable(s.claims[id].amount, s.Bal(c.escrow), c.reserve);
            var t := PayOut(c, s, now, id, to, from, status, kind, o).0;
            && t.users == s.users
            && if pay <= 0 then t == s
               else
                 var (u, ok) := s.Transfer(c.escrow, WalletOf(to), pay, o);
                 t.balance == u.balance && t.ledger == (if ok then s.ledger + [LedgerRow(to, kind, pay, Some(from), now)] else s.ledger)
  {
    hide State.Transfer, State.Bal;
    var pay := Payable(s.claims[id].amount, s.Bal(c.escrow), c.reserve);
    if pay > 0 {
      TransferShape(s, c.escrow, WalletOf(to), pay, o);
    }
  }

  lemma PayOutAccounts(c: Config, s: State, now: nat, id: nat, to: Phone, from: Phone, status: ClaimStatus, kind: Kind, o: Outcome, p: Phone)
    requires id < |s.claims| && c.escrow in s.users && p != c.escrow && (kind == EscrowClaim || kind == EscrowRefund)
    ensures var t := PayOut(c, s, now, id, to, from, status, kind, o).0;
            t.users == s.users && Agrees(s, t, p, if o.LandedButThrew? && to == p then PaidOut(c, s, id, o) else 0)
  {
    hide State.Transfer, State.BalanceAt;
    var pay := Payable(s.claims[id].amount, s.Bal(c.escrow), c.reserve);
    PayOutShape(c, s, now, id, to, from, status, kind, o);
    var t := PayOut(c, s, now, id, to, from, status, kind, o).0;
    if p != to {
      WalletsDiffer(p, to);
    }
    if pay > 0 {
      TransferMoves(s, c.escrow, WalletOf(to), pay, o, p);
      NetOfOne(s.ledger, LedgerRow(to, kind, pay, Some(from), now), p);
      SameBalance(s.Transfer(c.escrow, WalletOf(to), pay, o).0, t);
    }
  }

  lemma PayOneAccounts(c: Config, s: State, now: nat, id: nat, job: Job, o: Outcome, p: Phone)
    requires id < |s.claims| && c.escrow in s.users && p != c.escrow
    ensures var t := PayOne(c, s, now, id, job, o).0; t.users == s.users && Agrees(s, t, p, PayFound(c, s, id, job, o, p))
  {
    hide PayOut, Net, PaidOut;
    var k := s.claims[id];
    if job.Release? {
      PayOutAccounts(c, s, now, id, job.payee, k.from, Claimed, EscrowClaim, o, p);
    } else if k.from in s.users {
      PayOutAccounts(c, s, now, id, k.from, k.to, Refunded, EscrowRefund, o, p);
    }
  }

  lemma {:induction false} PayManyAccounts(c: Config, s: State, now: nat, ids: seq<nat>, job: Job, outcomes: seq<Outcome>, n: nat, p: Phone)
    requires n <= |ids| && (forall k | k in ids :: k < |s.claims|) && c.escrow in s.users && p != c.escrow
    ensures var t := PayMany(c, s, now, ids, job, outcomes, n).0;
            t.users == s.users && Agrees(s, t, p, JobFound(c, s, now, ids, job, outcomes, n, p))
  {
    hide PayOne, Net, PayFound;
    if n > 0 {
      PayManyAccounts(c, s, now, ids, job, outcomes, n - 1, p);
      PayManyStep(c, s, now, ids, job, outcomes, n);
      PayOneAccounts(c, PayMany(c, s, now, ids, job, outcomes, n - 1).0, now, ids[n - 1], job, OutcomeAt(outcomes, n - 1), p);
    }
  }

  lemma OperationAccounts(c: Config, s: State, op: Op, p: Phone)
    requires !op.Open? && p != c.escrow
    ensures Agrees(s, Operate(c, s, op), p, OpFound(c, s, op, p))
  {
    hide PayMany, WithEscrow, Net, Operate;
    var ids, e := Listing(s, op), WithEscrow(c, s);
    EscrowUserOnly(c, s);
    OperationIsItsJob(c, s, op);
    PayManyAccounts(c, e, op.now, ids, JobOf(op), OutcomesOf(op), |ids|, p);
    SameMoney(s, e, p);
  }

  // ----- payments -----

  /** How money moves past the ledger: gas a wallet pays, money that leaves it without a row, and money that
      comes without one. */
  datatype Offbook = Fees | Lost | Found

  /** The one transfer out of the wallet of q that paying an order tries: amount and address. */
  function Attempt(c: Config, s: State, now: nat, q: Phone, m: Pending): Option<(nat, string)>
    requires Money(m)
  {
    match m
    case PSend(amount, _, toAddress, toPhone, pendingClaim, _, _) =>
      if pendingClaim && toPhone.Some? then if CanOpen(c, s, now, q) then Some((amount, WalletOf(c.escrow))) else None
      else if toAddress.Some? then Some((amount, toAddress.value))
      else None
    case PSwap(amount, tokenIn, tokenOut, _) =>
      if tokenIn == USDC && tokenOut != USDC && amount <= s.Bal(q) then Some((amount, POOL)) else None
    case PTopup(charge, _, _) => Some((charge, WalletOf(c.sink)))
  }

  /** What a swap for USDC brings in. */
  function Proceeds(m: Pending, env: Env): nat {
    if m.PSwap? && m.tokenIn != USDC && m.tokenOut == USDC && !env.outcome.Threw? then env.got else 0
  }

  /** The payee's own row books what arrives. */
  predicate BookedAtPayee(m: Pending, o: Outcome) {
    o.Landed? && m.PSend? && m.toPhone.Some?
  }

  /** What paying the order moves past the ledger of p. */
  function PaymentFlow(c: Config, s: State, now: nat, q: Phone, m: Pending, env: Env, p: Phone, part: Offbook): nat
    requires Money(m)
  {
    var a, o := Attempt(c, s, now, q, m), env.outcome;
    var moved := if a.Some? then MovedBy(s, q, a.value.0, o) else 0;
    match part
    case Fees => if p == q && a.Some? then Burnt(s, q, a.value.0, o) else 0
    case Lost =>
      if p != q then 0
      else if !o.Landed? then moved
      else if m.PTopup? && !env.delivered then moved - RefundOf(c, s, q, m.charge, env)
      else 0
    case Found => (if a.Some? && a.value.1 == WalletOf(p) && !BookedAtPayee(m, o) then moved else 0) + if p == q then Proceeds(m, env) else 0
  }

  function PaymentOff(c: Config, s: State, now: nat, q: Phone, m: Pending, env: Env, p: Phone): int
    requires Money(m)
  {
    PaymentFlow(c, s, now, q, m, env, p, Found) - PaymentFlow(c, s, now, q, m, env, p, Fees) - PaymentFlow(c, s, now, q, m, env, p, Lost)
  }

  lemma SameFlow(c: Config, s: State, t: State, now: nat, q: Phone, m: Pending, env: Env, p: Phone)
    requires Money(m) && t.balance == s.balance && t.claims == s.claims
    ensures forall part :: PaymentFlow(c, t, now, q, m, env, p, part) == PaymentFlow(c, s, now, q, m, env, p, part)
  {
  }

  lemma HoldOnTheBooks(c: Config, s: State, now: nat, q: Phone, to: Phone, amount: nat, o: Outcome)
    ensures var t := Hold(c, s, now, q, to, amount, o).0;
            if !CanOpen(c, s, now, q) then t == s
            else
              var (u, ok) := WithEscrow(c, s).Transfer(q, WalletOf(c.escrow), amount, o);
              t.balance == u.balance && t.ledger == (if ok then s.ledger + [LedgerRow(q, EscrowHold, amount, Some(to), now)] else s.ledger)
  {
    hide CanOpen, WithEscrow, State.Transfer;
    EscrowUserOnly(c, s);
    if CanOpen(c, s, now, q) {
      TransferShape(WithEscrow(c, s), q, WalletOf(c.escrow), amount, o);
    }
  }

  lemma HoldAccounts(c: Config, s: State, now: nat, q: Phone, m: Pending, env: Env, p: Phone)
    requires m.PSend? && m.pendingClaim && m.toPhone.Some? && q in s.users && p != c.escrow
    ensures Agrees(s, Hold(c, s, now, q, m.toPhone.value, m.amount, env.outcome).0, p, PaymentOff(c, s, now, q, m, env, p))
  {
    hide Hold, CanOpen, WithEscrow, State.Transfer, State.BalanceAt;
    var to, amount, o := m.toPhone.value, m.amount, env.outcome;
    HoldOnTheBooks(c, s, now, q, to, amount, o);
    WalletsDiffer(p, c.escrow);
    var e, t := WithEscrow(c, s), Hold(c, s, now, q, to, amount, o).0;
    EscrowUserOnly(c, s);
    if CanOpen(c, s, now, q) {
      TransferMoves(e, q, WalletOf(c.escrow), amount, o, p);
      NetOfOne(s.ledger, LedgerRow(q, EscrowHold, amount, Some(to), now), p);
      SameBalance(s, e);
      SameBalance(e.Transfer(q, WalletOf(c.escrow), amount, o).0, t);
    }
  }

  lemma SendRows(rows: seq<LedgerRow>, q: Phone, m: Pending, now: nat, p: Phone)
    requires m.PSend? && WellAddressed(m) && !m.pendingClaim
    ensures var to := m.toPhone.Or(m.toAddress.value);
            var one := rows + [LedgerRow(q, Send, m.amount, Some(to), now)];
            var all := if m.toPhone.Some? then one + [LedgerRow(m.toPhone.value, Receive, m.amount, Some(q), now)] else one;
            Net(all, p) == Net(rows, p) - (if p == q then m.amount else 0)
                           + (if m.toPhone.Some? && m.toAddress.value == WalletOf(p) then m.amount else 0)
  {
    var to := m.toPhone.Or(m.toAddress.value);
    var r := LedgerRow(q, Send, m.amount, Some(to), now);
    NetOfOne(rows, r, p);
    if m.toPhone.Some? {
      NetOfOne(rows + [r], LedgerRow(m.toPhone.value, Receive, m.amount, Some(q), now), p);
      if p != m.toPhone.value {
        WalletsDiffer(p, m.toPhone.value);
      }
    }
  }

  /** A plain send is its transfer and, if that landed, its rows. */
  lemma SendOnTheBooks(c: Config, s: State, s1: State, now: nat, q: Phone, m: Pending, o: Outcome)
    requires m.PSend? && WellAddressed(m) && !m.pendingClaim && m.key !in s.idem && s1 == s.(idem := s.idem[m.key := InFlight])
    ensures var (s2, ok) := s1.Transfer(q, m.toAddress.value, m.amount, o);
            var t := SendFx(c, s, now, q, m, o).0;
            var one := s2.ledger + [LedgerRow(q, Send, m.amount, Some(m.toPhone.Or(m.toAddress.value)), now)];
            && t.balance == s2.balance
            && t.ledger == if !ok then s2.ledger
                           else if m.toPhone.Some? then one + [LedgerRow(m.toPhone.value, Receive, m.amount, Some(q), now)]
                           else one
  {
    hide State.Transfer;
  }

  lemma AddressIsKnown(m: Pending)
    requires m.PSend? && WellAddressed(m) && !m.pendingClaim
    ensures m.toAddress.Some?
  {
  }

  lemma SendOff(c: Config, s: State, now: nat, q: Phone, m: Pending, env: Env, p: Phone)
    requires m.PSend? && !m.pendingClaim && m.toAddress.Some?
    ensures var moved := MovedBy(s, q, m.amount, env.outcome);
            PaymentOff(c, s, now, q, m, env, p)
              == (if m.toAddress.value == WalletOf(p) && !BookedAtPayee(m, env.outcome) then moved else 0)
                 - if p == q then Burnt(s, q, m.amount, env.outcome) + (if env.outcome.Landed? then 0 else moved) else 0
  {
    hide MovedBy, Burnt, WalletOf;
  }

  lemma SameTransfer(s: State, t: State, q: Phone, amount: nat, o: Outcome)
    requires t.balance == s.balance
    ensures MovedBy(t, q, amount, o) == MovedBy(s, q, amount, o) && Burnt(t, q, amount, o) == Burnt(s, q, amount, o)
  {
  }

  lemma PlainSendAccounts(c: Config, s: State, now: nat, q: Phone, m: Pending, env: Env, p: Phone)
    requires m.PSend? && WellAddressed(m) && !m.pendingClaim && m.key !in s.idem && q in s.users
    ensures Agrees(s, SendFx(c, s, now, q, m, env.outcome).0, p, PaymentOff(c, s, now, q, m, env, p))
  {
    hide State.Transfer, SendFx, State.Bal, PaymentOff, WellAddressed, Burnt, Net, WalletOf;
    var s1, t, o := s.(idem := s.idem[m.key := InFlight]), SendFx(c, s, now, q, m, env.outcome).0, env.outcome;
    assert m.toAddress.Some? by { AddressIsKnown(m); }
    SendOff(c, s, now, q, m, env, p);
    SendOnTheBooks(c, s, s1, now, q, m, o);
    SendRows(s.ledger, q, m, now, p);
    SameBalance(s, s1);
    SameTransfer(s, s1, q, m.amount, o);
    TransferMoves(s1, q, m.toAddress.value, m.amount, o, p);
    SameBalance(s1.Transfer(q, m.toAddress.value, m.amount, o).0, t);
  }

  lemma HeldSendOnTheBooks(c: Config, s: State, s1: State, now: nat, q: Phone, m: Pending, o: Outcome)
    requires m.PSend? && m.pendingClaim && m.toPhone.Some? && m.key !in s.idem && s1 == s.(idem := s.idem[m.key := InFlight])
    ensures var u, t := Hold(c, s1, now, q, m.toPhone.value, m.amount, o).0, SendFx(c, s, now, q, m, o).0;
            t.balance == u.balance && t.ledger == u.ledger
  {
  }

  lemma SendAccounts(c: Config, s: State, now: nat, q: Phone, m: Pending, env: Env, p: Phone)
    requires m.PSend? && WellAddressed(m) && m.key !in s.idem && q in s.users && p != c.escrow
    ensures Agrees(s, SendFx(c, s, now, q, m, env.outcome).0, p, PaymentOff(c, s, now, q, m, env, p))
  {
    hide SendFx, Hold, PaymentFlow, Net;
    if m.pendingClaim {
      var s1, t := s.(idem := s.idem[m.key := InFlight]), SendFx(c, s, now, q, m, env.outcome).0;
      HoldAccounts(c, s1, now, q, m, env, p);
      HeldSendOnTheBooks(c, s, s1, now, q, m, env.outcome);
      SameMoney(s, s1, p);
      SameFlow(c, s, s1, now, q, m, env, p);
      SameMoney(Hold(c, s1, now, q, m.toPhone.value, m.amount, env.outcome).0, t, p);
    } else {
      PlainSendAccounts(c, s, now, q, m, env, p);
    }
  }

  lemma PoolIsNoWallet(p: Phone)
    ensures POOL != WalletOf(p)
  {
    assert |WalletOf(p)| >= 7 && |POOL| == 4;
  }

  /** The USDC side of a swap. */
  lemma SwapMoveAccounts(c: Config, s: State, now: nat, q: Phone, m: Pending, env: Env, p: Phone)
    requires m.PSwap? && q in s.users
    ensures var (t, ok) := SwapMove(s, q, m, env.outcome, env.got);
            && t.Bal(p) == s.Bal(p) + PaymentOff(c, s, now, q, m, env, p) - (if ok && p == q && m.tokenIn == USDC then m.amount else 0)
            && t.ledger == s.ledger
  {
    hide State.Transfer, State.BalanceAt;
    TransferMoves(s, q, POOL, m.amount, env.outcome, p);
    PoolIsNoWallet(p);
    CreditIsExact(s, WalletOf(q), env.got);
    if p != q {
      WalletsDiffer(p, q);
    }
  }

  lemma SwapOnTheBooks(s: State, s1: State, now: nat, q: Phone, m: Pending, o: Outcome, got: nat)
    requires m.PSwap? && m.key !in s.idem && s1 == s.(idem := s.idem[m.key := InFlight])
    ensures var (s2, ok) := SwapMove(s1, q, m, o, got);
            var t := SwapFx(s, now, q, m, o, got).0;
            && t.balance == s2.balance
            && t.ledger == s2.ledger + (if ok then [LedgerRow(q, Swap, if m.tokenIn == USDC then m.amount else 0, None, now)] else [])
  {
  }

  lemma SwapAccounts(c: Config, s: State, now: nat, q: Phone, m: Pending, env: Env, p: Phone)
    requires m.PSwap? && m.key !in s.idem && q in s.users
    ensures Agrees(s, SwapFx(s, now, q, m, env.outcome, env.got).0, p, PaymentOff(c, s, now, q, m, env, p))
  {
    hide Net, SwapMove, SwapFx, PaymentFlow;
    var s1 := s.(idem := s.idem[m.key := InFlight]);
    SwapMoveAccounts(c, s1, now, q, m, env, p);
    SameFlow(c, s, s1, now, q, m, env, p);
    SwapOnTheBooks(s, s1, now, q, m, env.outcome, env.got);
    NetOfOne(s.ledger, LedgerRow(q, Swap, if m.tokenIn == USDC then m.amount else 0, None, now), p);
    var s2, t := SwapMove(s1, q, m, env.outcome, env.got).0, SwapFx(s, now, q, m, env.outcome, env.got).0;
    assert t.Bal(p) == s2.Bal(p) && s1.Bal(p) == s.Bal(p) && s.ledger + [] == s.ledger;
  }

  lemma SinkIsKnown(c: Config, s: State)
    ensures var e := s.WithUser(c.sink); e == s.(users := e.users) && c.sink in e.users && s.users.Keys <= e.users.Keys
  {
  }

  /** A debit that is not delivered may come back; a refund that throws although it landed has come back. */
  lemma AirtimeAccounts(c: Config, s: State, now: nat, q: Phone, m: Pending, env: Env, p: Phone)
    requires c.Valid() && m.PTopup? && q in s.users && q != c.sink && p != c.sink
    ensures var (t, ok) := AirtimeMove(c, s, q, m.charge, env);
            && t.Bal(p) == s.Bal(p) + PaymentOff(c, s, now, q, m, env, p) - (if ok && p == q then m.charge else 0)
            && t.ledger == s.ledger
  {
    hide State.Transfer, State.WithUser, State.BalanceAt;
    var e := s.WithUser(c.sink);
    SinkIsKnown(c, s);
    SameBalance(s, e);
    TransferMoves(e, q, WalletOf(c.sink), m.charge, env.outcome, p);
    TransferMoves(e, q, WalletOf(c.sink), m.charge, env.outcome, c.sink);
    WalletsDiffer(p, c.sink);
    var (t, ok) := e.Transfer(q, WalletOf(c.sink), m.charge, env.outcome);
    if ok && !env.delivered {
      TransferMoves(t, c.sink, WalletOf(q), m.charge, env.refund, p);
      if p != q {
        WalletsDiffer(p, q);
      }
    }
  }

  lemma TopupOnTheBooks(c: Config, s: State, s1: State, now: nat, q: Phone, m: Pending, env: Env)
    requires m.PTopup? && m.key !in s.idem && s1 == s.(idem := s.idem[m.key := InFlight])
    ensures var (s2, ok) := AirtimeMove(c, s1, q, m.charge, env);
            var t := TopupFx(c, s, now, q, m, env).0;
            && t.balance == s2.balance
            && t.ledger == s2.ledger + (if ok then [LedgerRow(q, Airtime, m.charge, Some(m.msisdn), now)] else [])
  {
    hide AirtimeMove;
  }

  lemma TopupAccounts(c: Config, s: State, now: nat, q: Phone, m: Pending, env: Env, p: Phone)
    requires c.Valid() && m.PTopup? && m.key !in s.idem && q in s.users && q != c.sink && p != c.sink
    ensures Agrees(s, TopupFx(c, s, now, q, m, env).0, p, PaymentOff(c, s, now, q, m, env, p))
  {
    hide Net, AirtimeMove, TopupFx, PaymentFlow;
    var s1 := s.(idem := s.idem[m.key := InFlight]);
    AirtimeAccounts(c, s1, now, q, m, env, p);
    SameFlow(c, s, s1, now, q, m, env, p);
    TopupOnTheBooks(c, s, s1, now, q, m, env);
    NetOfOne(s.ledger, LedgerRow(q, Airtime, m.charge, Some(m.msisdn), now), p);
    var s2, t := AirtimeMove(c, s1, q, m.charge, env).0, TopupFx(c, s, now, q, m, env).0;
    assert t.Bal(p) == s2.Bal(p) && s1.Bal(p) == s.Bal(p) && s.ledger + [] == s.ledger;
  }

  lemma PaymentAccounts(c: Config, s: State, now: nat, q: Phone, m: Pending, env: Env, p: Phone)
    requires c.Valid() && c.Ordinary(q) && c.Ordinary(p) && q in s.users && Money(m) && KeyOf(m) !in s.idem
    requires m.PSend? ==> WellAddressed(m)
    ensures Agrees(s, PayFx(c, s, now, q, m, env).0, p, PaymentOff(c, s, now, q, m, env, p))
  {
    hide SendFx, SwapFx, TopupFx, PaymentFlow, Agrees;
    if m.PSend? {
      SendAccounts(c, s, now, q, m, env, p);
    } else if m.PSwap? {
      SwapAccounts(c, s, now, q, m, env, p);
    } else {
      TopupAccounts(c, s, now, q, m, env, p);
    }
  }

  // ----- steps -----

  /** What the step from s to t moves past the ledger of p. */
  ghost function StepOff(c: Config, s: State, t: State, i: Input, p: Phone, part: Offbook): nat
    requires |c.tiers| == 3
  {
    if i.Said? && Pays(c, s, t, i.at, NormalizePhone(i.raw), PinOf(s, i), i.m.env) then
      var q := NormalizePhone(i.raw);
      PaymentFlow(c, s.ClearFails(q), i.at, q, s.sessions[q], i.m.env, p, part)
    else
      var x := PayoutOf(c, s, t, i);
      if x.Payout? && part.Found? then OpFound(c, x.from, x.op, p) else 0
  }

  function Deposit(i: Input, p: Phone): nat {
    if i.Deposited? && i.to == p then i.amount else 0
  }

  lemma PayingAccounts(c: Config, s: State, t: State, now: nat, q: Phone, pin: Option<string>, env: Env, p: Phone)
    requires c.Valid() && c.Ordinary(q) && c.Ordinary(p) && Bound(s, now, q) && Pays(c, s, t, now, q, pin, env)
    ensures Agrees(s, t, p, PaymentOff(c, s.ClearFails(q), now, q, s.sessions[q], env, p))
  {
    hide PayFx, PaymentFlow, Net;
    PaymentAccounts(c, s.ClearFails(q), now, q, s.sessions[q], env, p);
    SameMoney(s, s.ClearFails(q), p);
  }

  /** Balances are as they were and no row records money. */
  ghost predicate NoMoneyRows(s: State, t: State) {
    && t.balance == s.balance && s.ledger <= t.ledger
    && forall k | |s.ledger| <= k < |t.ledger| :: Neutral(t.ledger[k].kind)
  }

  lemma UntouchedAccounts(s: State, t: State, p: Phone)
    requires NoMoneyRows(s, t)
    ensures Agrees(s, t, p, 0)
  {
    var more := t.ledger[|s.ledger|..];
    assert t.ledger == s.ledger + more;
    NetOfNeutral(s.ledger, more, p);
  }

  lemma LightBooksNothing(s: State, t: State, q: Phone)
    requires Light(s, t, q)
    ensures NoMoneyRows(s, t)
  {
  }

  lemma OtherwiseNoMoneyRows(c: Config, s: State, t: State, now: nat, q: Phone, m: Message)
    requires |c.tiers| == 3 && MessageKind(c, s, t, now, q, m)
    ensures || NoMoneyRows(s, t)
            || Completes(c, s, t, now, q, m.intent, m.env)
            || Pays(c, s, t, now, q, if m.intent.ConfirmWith? then m.intent.pin else None, m.env)
  {
    hide Light, Completes, Pays, MessageKind;
    MessageIsLight(c, s, t, now, q, m);
    if Light(s, t, q) {
      LightBooksNothing(s, t, q);
    }
  }

  /** A step that carries out a payout. */
  lemma PayoutAccounts(c: Config, s: State, i: Input, p: Phone)
    requires c.Valid() && c.Ordinary(p) && FromPeople(c, i) && ClaimsOk(c, s)
    requires PayoutOf(c, s, Step(c, s, i), i).Payout?
    ensures var x := PayoutOf(c, s, Step(c, s, i), i); Agrees(s, Step(c, s, i), p, OpFound(c, x.from, x.op, p))
  {
    hide Step, Operate, OpFound, ClaimsOk, PayoutOf, Net;
    var t := Step(c, s, i);
    var x := PayoutOf(c, s, t, i);
    ExpirySteps(c, s, i);
    PayoutsAreOperations(c, s, t, i);
    OperationAccounts(c, x.from, x.op, p);
    SameMoney(s, x.from, p);
  }

  /** Any other step leaves ledger and balances, or credits a deposit. */
  lemma QuietAccounts(c: Config, s: State, i: Input, p: Phone)
    requires c.Valid() && FromPeople(c, i) && Rooted(c, s) && PayoutOf(c, s, Step(c, s, i), i).NoPayout?
    requires i.Said? ==> !Pays(c, s, Step(c, s, i), i.at, NormalizePhone(i.raw), PinOf(s, i), i.m.env)
    ensures Agrees(s, Step(c, s, i), p, Deposit(i, p))
  {
    hide Pays, Completes, NormalizePhone, HandleFx, JoinFx, MemoFx, Channels.Share, Expire, Net;
    var t := Step(c, s, i);
    StepIsKnown(c, s, i);
    match i
    case Said(at, raw, m) =>
      if IsTelegram(NormalizePhone(raw)) {
        UntouchedAccounts(s, t, p);
      } else {
        OtherwiseNoMoneyRows(c, s, t, at, NormalizePhone(raw), Expanded(s, i));
        UntouchedAccounts(s, t, p);
      }
    case ExpiryJob(_, _) =>
    case Deposited(_, to, amount) =>
      CreditIsExact(s, WalletOf(to), amount);
      if to != p {
        WalletsDiffer(to, p);
      }
    case _ => UntouchedAccounts(s, t, p);
  }

  /** What the step moves past the ledger, all in all. */
  lemma StepAccounts(c: Config, s: State, i: Input, p: Phone)
    requires c.Valid() && c.Ordinary(p) && FromPeople(c, i) && Rooted(c, s) && ClaimsOk(c, s)
    requires forall q | c.Ordinary(q) :: Bound(s, i.at, q)
    ensures var t := Step(c, s, i);
            Agrees(s, t, p, Deposit(i, p) + StepOff(c, s, t, i, p, Found) - StepOff(c, s, t, i, p, Fees) - StepOff(c, s, t, i, p, Lost))
  {
    hide Step, PaymentFlow, OpFound, ClaimsOk, Bound, Net, Pays, PayoutOf, Rooted;
    var t := Step(c, s, i);
    if i.Said? && Pays(c, s, t, i.at, NormalizePhone(i.raw), PinOf(s, i), i.m.env) {
      PayingAccounts(c, s, t, i.at, NormalizePhone(i.raw), PinOf(s, i), i.m.env, p);
    } else if PayoutOf(c, s, t, i).Payout? {
      DepositsPayNothing(c, s, t, i);
      PayoutAccounts(c, s, i, p);
    } else {
      QuietAccounts(c, s, i, p);
    }
  }

  lemma DepositsPayNothing(c: Config, s: State, t: State, i: Input)
    requires |c.tiers| == 3
    ensures PayoutOf(c, s, t, i).Payout? ==> !i.Deposited?
  {
  }

  // ----- runs -----

  /** What outside deposits brought p with the first k inputs. */
  function Deposits(run: seq<Input>, k: nat, p: Phone): nat
    requires k <= |run|
  {
    if k == 0 then 0 else Deposits(run, k - 1, p) + Deposit(run[k - 1], p)
  }

  /** What the first k steps moved past the ledger of p. */
  ghost function RunOff(c: Config, run: seq<Input>, t: seq<State>, k: nat, p: Phone, part: Offbook): nat
    requires |c.tiers| == 3 && |t| == |run| + 1 && k <= |run|
  {
    if k == 0 then 0 else RunOff(c, run, t, k - 1, p, part) + StepOff(c, t[k - 1], t[k], run[k - 1], p, part)
  }

  /** In every state of every run each person's balance is deposits, plus the `receive`, `escrow_claim` and
      `escrow_refund` rows, minus the `send`, `escrow_hold`, `airtime` and `swap` rows, minus the gas of its
      payments and what left without a row, plus what came without one. */
  lemma {:induction false} EveryBalanceIsAccountedFor(c: Config, run: seq<Input>, t: seq<State>, k: nat, p: Phone)
    requires Run(c, run, t) && k <= |run| && c.Ordinary(p)
    ensures t[k].Bal(p) == Deposits(run, k, p) + Net(t[k].ledger, p)
                           - RunOff(c, run, t, k, p, Fees) - RunOff(c, run, t, k, p, Lost) + RunOff(c, run, t, k, p, Found)
  {
    hide Step, FromPeople, StepOff, Deposit;
    if k > 0 {
      EveryBalanceIsAccountedFor(c, run, t, k - 1, p);
      RunsKeepClaimsOk(c, run, t, k - 1);
      StepOfRun(c, run, t, k - 1);
      StepAccounts(c, t[k - 1], run[k - 1], p);
    }
  }

  // ----- runs in which nothing moves past the ledger -----

  /** A transfer that either lands without gas or does nothing. */
  predicate Clean(o: Outcome) {
    o == Landed(0) || o == Threw(0)
  }

  predicate AllClean(outcomes: seq<Outcome>) {
    forall k | 0 <= k < |outcomes| :: Clean(outcomes[k])
  }

  /** The order pays a phone, or an address that is no wallet of ours, and brings in no USDC. */
  ghost predicate Bookable(m: Pending) {
    && (m.PSend? && m.toPhone.None? ==> forall x :: m.toAddress != Some(WalletOf(x)))
    && (m.PSwap? ==> m.tokenOut != USDC)
  }

  /** Money flows of the step are all of the booked kinds: clean transfers, and if an order is paid, it is
      bookable and an undelivered charge is refunded. */
  ghost predicate Booked(c: Config, s: State, t: State, i: Input) {
    && (i.ExpiryJob? ==> AllClean(i.outcomes))
    && (i.Said? ==>
          && AllClean(i.m.env.payouts)
          && (Pays(c, s, t, i.at, NormalizePhone(i.raw), PinOf(s, i), i.m.env) ==>
                Clean(i.m.env.outcome) && i.m.env.refund == Landed(0) && Bookable(s.sessions[NormalizePhone(i.raw)])))
  }

  lemma {:induction false} CleanJobsFindNothing(c: Config, s: State, now: nat, ids: seq<nat>, job: Job, outcomes: seq<Outcome>, n: nat, p: Phone)
    requires n <= |ids| && (forall k | k in ids :: k < |s.claims|) && AllClean(outcomes)
    ensures JobFound(c, s, now, ids, job, outcomes, n, p) == 0
  {
    hide PayMany, PaidOut;
    if n > 0 {
      CleanJobsFindNothing(c, s, now, ids, job, outcomes, n - 1, p);
    }
  }

  lemma CleanPaymentsAreBooked(c: Config, s: State, now: nat, q: Phone, m: Pending, env: Env, p: Phone)
    requires c.Ordinary(q) && c.Ordinary(p) && Money(m) && Clean(env.outcome) && env.refund == Landed(0) && Bookable(m)
    requires m.PSend? ==> WellAddressed(m)
    ensures forall part :: PaymentFlow(c, s, now, q, m, env, p, part) == 0
  {
    WalletsDiffer(p, c.escrow);
    WalletsDiffer(p, c.sink);
    PoolIsNoWallet(p);
  }

  lemma BookedStepsHideNothing(c: Config, s: State, t: State, i: Input, p: Phone, part: Offbook)
    requires c.Valid() && c.Ordinary(p) && FromPeople(c, i) && Booked(c, s, t, i)
    requires forall q | c.Ordinary(q) :: Bound(s, i.at, q)
    ensures StepOff(c, s, t, i, p, part) == 0
  {
    hide PaymentFlow, JobFound, NormalizePhone, Clean, Listing, WithEscrow, PayFx, Completes;
    if i.Said? && Pays(c, s, t, i.at, NormalizePhone(i.raw), PinOf(s, i), i.m.env) {
      var q := NormalizePhone(i.raw);
      assert Bound(s, i.at, q);
      CleanPaymentsAreBooked(c, s.ClearFails(q), i.at, q, s.sessions[q], i.m.env, p);
    } else if PayoutOf(c, s, t, i).Payout? {
      var x := PayoutOf(c, s, t, i);
      var ids := Listing(x.from, x.op);
      EscrowUserOnly(c, x.from);
      CleanJobsFindNothing(c, WithEscrow(c, x.from), x.op.now, ids, JobOf(x.op), OutcomesOf(x.op), |ids|, p);
    }
  }

  /** All money flows of the first k steps are of the booked kinds. */
  ghost predicate AllBooked(c: Config, run: seq<Input>, t: seq<State>, k: nat)
    requires k <= |run| && |t| == |run| + 1
  {
    forall j | 0 <= j < k :: Booked(c, t[j], t[j + 1], run[j])
  }

  /** After every run of booked steps the ledger is the whole story: no money has moved past it, so each
      balance is what deposits and rows say. */
  lemma {:induction false} BalancesMatchTheLedger(c: Config, run: seq<Input>, t: seq<State>, k: nat, p: Phone)
    requires Run(c, run, t) && k <= |run| && AllBooked(c, run, t, k) && c.Ordinary(p)
    ensures forall part :: RunOff(c, run, t, k, p, part) == 0
    ensures t[k].Bal(p) == Deposits(run, k, p) + Net(t[k].ledger, p)
  {
    hide Step, FromPeople, Booked, StepOff;
    EveryBalanceIsAccountedFor(c, run, t, k, p);
    if k > 0 {
      BalancesMatchTheLedger(c, run, t, k - 1, p);
      StepOfRun(c, run, t, k - 1);
      assert Booked(c, t[k - 1], t[k], run[k - 1]);
      var s, u, i := t[k - 1], t[k], run[k - 1];
      forall part ensures StepOff(c, s, u, i, p, part) == 0 {
        BookedStepsHideNothing(c, s, u, i, p, part);
      }
    }
  }
}
