/** Every step of a run, seen from one phone, is one of six things: harmless to it, a payment order
    it opens after the policy gate accepted it, a payment it makes from its pending order, a savings
    lock it closes, a new set of rules it freezes, or the end of a chat account. */
module Effects {
  import opened Text
  import opened Tables
  import opened Settings
  import opened Policy
  import opened Payees
  import opened Pipeline
  import opened Frames
  import opened Runs
  import Channels
  import Claims

  predicate Money(m: Pending) {
    m.PSend? || m.PSwap? || m.PTopup?
  }

  function KeyOf(m: Pending): Key
    requires Money(m)
  {
    m.key
  }

  ghost predicate Subset(a: seq<FrozenRule>, b: seq<FrozenRule>) {
    forall r | r in a :: r in b
  }

  /** Nothing that matters to p's money got worse: no money of p moved out, nothing of p's was
      booked as an outflow, no order of p's appeared, no rule of p's was added. */
  ghost predicate Harmless(s: State, t: State, now: nat, p: Phone) {
    && (p in s.users ==> p in t.users)
    && (p in s.users && Onboarded(s.users[p]) ==> Onboarded(t.users[p]))
    && (p in t.sessions && Guarded(t.sessions[p]) ==> p in s.sessions && SameOrder(s.sessions[p], t.sessions[p]))
    && Subset(t.Rules(p), s.Rules(p))
    && (forall u: nat | u >= now :: t.Locked(p, u) == s.Locked(p, u))
    && t.Bal(p) >= s.Bal(p)
    && s.idem.Keys <= t.idem.Keys && s.nextKey <= t.nextKey
    && s.ledger <= t.ledger
    && (forall k | |s.ledger| <= k < |t.ledger| ::
          t.ledger[k].at == now && (t.ledger[k].phone == p ==> !Outflow(t.ledger[k].kind)))
  }

  lemma HarmlessChain(s: State, t: State, u: State, now: nat, p: Phone)
    requires Harmless(s, t, now, p) && Harmless(t, u, now, p)
    ensures Harmless(s, u, now, p)
  {
  }

  lemma IdleIsHarmless(s: State, now: nat, p: Phone)
    ensures Harmless(s, s, now, p)
  {
  }

  lemma TidyIsHarmless(s: State, t: State, now: nat, q: Phone, p: Phone)
    requires Tidy(s, t, now, q)
    ensures Harmless(s, t, now, p)
  {
  }

  /** Only users that are house accounts, balances that do not fall, claims, finished keys and
      rows that are no outflow of p. */
  lemma HouseworkIsHarmless(s: State, t: State, now: nat, p: Phone)
    requires t.sessions == s.sessions && t.rules == s.rules && t.locks == s.locks
    requires p in s.users ==> p in t.users && t.users[p] == s.users[p]
    requires t.Bal(p) >= s.Bal(p) && s.idem.Keys <= t.idem.Keys && s.nextKey <= t.nextKey
    requires t.ledger == s.ledger
             || exists r :: t.ledger == s.ledger + [r] && r.at == now && (r.phone == p ==> !Outflow(r.kind))
    ensures Harmless(s, t, now, p)
  {
  }

  // ----- moving money -----

  lemma TransferKeepsOthers(s: State, from: Phone, to: string, amount: nat, o: Outcome, p: Phone)
    requires p != from
    ensures var t := s.Transfer(from, to, amount, o).0;
            t.Bal(p) >= s.Bal(p) && t == s.(balance := t.balance)
  {
    hide State.Credit, State.BalanceAt, WalletOf;
    TransferShape(s, from, to, amount, o);
    WalletsDiffer(from, p);
    var t := s.Transfer(from, to, amount, o).0;
    if from !in s.users {
      assert t == s;
    } else if o.Threw? || amount + o.fee > s.Bal(from) {
      CreditIsExact(s, WalletOf(from), -Min(o.fee, s.Bal(from)));
    } else {
      CreditIsExact(s, WalletOf(from), -(amount + o.fee));
      CreditIsExact(s.Credit(WalletOf(from), -(amount + o.fee)), to, amount);
    }
  }

  lemma TransferIsHarmless(s: State, now: nat, from: Phone, to: string, amount: nat, o: Outcome, p: Phone)
    requires p != from
    ensures Harmless(s, s.Transfer(from, to, amount, o).0, now, p)
  {
    TransferKeepsOthers(s, from, to, amount, o, p);
    HouseworkIsHarmless(s, s.Transfer(from, to, amount, o).0, now, p);
  }

  lemma CreditIsHarmless(s: State, now: nat, to: string, amount: nat, p: Phone)
    ensures Harmless(s, s.Credit(to, amount), now, p)
  {
    HouseworkIsHarmless(s, s.Credit(to, amount), now, p);
  }

  lemma RowIsHarmless(s: State, now: nat, r: LedgerRow, p: Phone)
    requires r.at == now && (r.phone == p ==> !Outflow(r.kind))
    ensures Harmless(s, s.AddRow(r), now, p)
  {
    HouseworkIsHarmless(s, s.AddRow(r), now, p);
  }

  lemma EscrowWalletIsHarmless(c: Config, s: State, now: nat, p: Phone)
    requires c.Ordinary(p)
    ensures Harmless(s, Claims.WithEscrow(c, s), now, p)
  {
    hide Claims.WithEscrow;
    Claims.EscrowUserOnly(c, s);
    HouseworkIsHarmless(s, Claims.WithEscrow(c, s), now, p);
  }

  lemma PayOutIsHarmless(c: Config, s: State, now: nat, id: nat, to: Phone, from: Phone, status: ClaimStatus, kind: Kind, o: Outcome, p: Phone)
    requires c.Ordinary(p) && id < |s.claims| && !Outflow(kind)
    ensures Harmless(s, Claims.PayOut(c, s, now, id, to, from, status, kind, o).0, now, p)
  {
    hide State.Transfer, Harmless;
    var pay := Claims.Payable(s.claims[id].amount, s.Bal(c.escrow), c.reserve);
    IdleIsHarmless(s, now, p);
    if pay > 0 {
      var (t, ok) := s.Transfer(c.escrow, WalletOf(to), pay, o);
      TransferShape(s, c.escrow, WalletOf(to), pay, o);
      TransferIsHarmless(s, now, c.escrow, WalletOf(to), pay, o, p);
      if ok {
        var m := Claims.Mark(t, id, status);
        var row := LedgerRow(to, kind, pay, Some(from), now);
        HouseworkIsHarmless(t, m, now, p);
        RowIsHarmless(m, now, row, p);
        HarmlessChain(s, t, m, now, p);
        HarmlessChain(s, m, m.AddRow(row), now, p);
      }
    }
  }

  lemma PayOneIsHarmless(c: Config, s: State, now: nat, id: nat, job: Claims.Job, o: Outcome, p: Phone)
    requires c.Ordinary(p) && id < |s.claims|
    ensures Harmless(s, Claims.PayOne(c, s, now, id, job, o).0, now, p)
  {
    var k := s.claims[id];
    if job.Release? {
      PayOutIsHarmless(c, s, now, id, job.payee, k.from, Claimed, EscrowClaim, o, p);
    } else if k.from in s.users {
      PayOutIsHarmless(c, s, now, id, k.from, k.to, Refunded, EscrowRefund, o, p);
    } else {
      HouseworkIsHarmless(s, Claims.Mark(s, id, Expired), now, p);
    }
  }

  lemma PayingOneMoreIsHarmless(c: Config, s: State, t: State, now: nat, id: nat, job: Claims.Job, o: Outcome, p: Phone)
    requires c.Ordinary(p) && id < |t.claims| && Harmless(s, t, now, p)
    ensures Harmless(s, Claims.PayOne(c, t, now, id, job, o).0, now, p)
  {
    PayOneIsHarmless(c, t, now, id, job, o, p);
    HarmlessChain(s, t, Claims.PayOne(c, t, now, id, job, o).0, now, p);
  }

  lemma {:induction false} PayManyIsHarmless(c: Config, s: State, now: nat, ids: seq<nat>, job: Claims.Job, outcomes: seq<Outcome>, n: nat, p: Phone)
    requires c.Ordinary(p) && n <= |ids| && forall k | k in ids :: k < |s.claims|
    ensures Harmless(s, Claims.PayMany(c, s, now, ids, job, outcomes, n).0, now, p)
  {
    if n == 0 {
      IdleIsHarmless(s, now, p);
    } else {
      PayManyIsHarmless(c, s, now, ids, job, outcomes, n - 1, p);
      Claims.PayManyStep(c, s, now, ids, job, outcomes, n);
      var t := Claims.PayMany(c, s, now, ids, job, outcomes, n - 1).0;
      PayingOneMoreIsHarmless(c, s, t, now, ids[n - 1], job, Claims.OutcomeAt(outcomes, n - 1), p);
    }
  }

  lemma FulfilIsHarmless(c: Config, s: State, now: nat, payee: Phone, outcomes: seq<Outcome>, p: Phone)
    requires c.Ordinary(p)
    ensures Harmless(s, Claims.Fulfil(c, s, now, payee, outcomes).0, now, p)
  {
    var ids := Claims.HeldClaimsOf(s.claims, payee);
    IdleIsHarmless(s, now, p);
    if ids != [] && payee in s.users {
      var e := Claims.WithEscrow(c, s);
      EscrowWalletIsHarmless(c, s, now, p);
      PayManyIsHarmless(c, e, now, ids, Claims.Release(payee), outcomes, |ids|, p);
      HarmlessChain(s, e, Claims.Fulfil(c, s, now, payee, outcomes).0, now, p);
    }
  }

  lemma ExpireIsHarmless(c: Config, s: State, now: nat, outcomes: seq<Outcome>, p: Phone)
    requires c.Ordinary(p)
    ensures Harmless(s, Claims.Expire(c, s, now, outcomes).0, now, p)
  {
    var ids := Claims.HeldPast(s.claims, now);
    var e := Claims.WithEscrow(c, s);
    EscrowWalletIsHarmless(c, s, now, p);
    PayManyIsHarmless(c, e, now, ids, Claims.Refund, outcomes, |ids|, p);
    HarmlessChain(s, e, Claims.Expire(c, s, now, outcomes).0, now, p);
  }

  // ----- a payment seen from another phone -----

  lemma FinishIsHarmless(s: State, now: nat, q: Phone, key: Key, r: Reply, p: Phone)
    ensures Harmless(s, FinishFx(s, q, key, r).0, now, p)
  {
  }

  lemma HoldIsHarmless(c: Config, s: State, now: nat, q: Phone, to: Phone, amount: nat, o: Outcome, p: Phone)
    requires c.Ordinary(p) && p != q
    ensures Harmless(s, Claims.Hold(c, s, now, q, to, amount, o).0, now, p)
  {
    IdleIsHarmless(s, now, p);
    if Claims.CanOpen(c, s, now, q) {
      var e := Claims.WithEscrow(c, s);
      EscrowWalletIsHarmless(c, s, now, p);
      var (t, ok) := e.Transfer(q, WalletOf(c.escrow), amount, o);
      TransferIsHarmless(e, now, q, WalletOf(c.escrow), amount, o, p);
      HarmlessChain(s, e, t, now, p);
      if ok {
        var u := Claims.Hold(c, s, now, q, to, amount, o).0;
        HouseworkIsHarmless(t, u, now, p);
        HarmlessChain(s, t, u, now, p);
      }
    }
  }

  lemma StartIsHarmless(s: State, now: nat, key: Key, p: Phone)
    ensures Harmless(s, s.(idem := s.idem[key := InFlight]), now, p)
  {
  }

  lemma SendIsHarmlessToOthers(c: Config, s: State, now: nat, q: Phone, m: Pending, o: Outcome, p: Phone)
    requires c.Ordinary(p) && p != q && m.PSend?
    ensures Harmless(s, SendFx(c, s, now, q, m, o).0, now, p)
  {
    IdleIsHarmless(s, now, p);
    if m.key !in s.idem {
      var s1 := s.(idem := s.idem[m.key := InFlight]);
      StartIsHarmless(s, now, m.key, p);
      if m.pendingClaim && m.toPhone.Some? {
        var (s2, id) := Claims.Hold(c, s1, now, q, m.toPhone.value, m.amount, o);
        HoldIsHarmless(c, s1, now, q, m.toPhone.value, m.amount, o, p);
        HarmlessChain(s, s1, s2, now, p);
        if id.Some? {
          FinishIsHarmless(s2, now, q, m.key, HeldFor(m.amount, id.value), p);
          HarmlessChain(s, s2, FinishFx(s2, q, m.key, HeldFor(m.amount, id.value)).0, now, p);
        }
      } else if m.toAddress.Some? {
        var (s2, ok) := s1.Transfer(q, m.toAddress.value, m.amount, o);
        TransferIsHarmless(s1, now, q, m.toAddress.value, m.amount, o, p);
        HarmlessChain(s, s1, s2, now, p);
        if ok {
          BookedSendIsHarmless(s2, now, q, m, p);
          HarmlessChain(s, s2, SendFx(c, s, now, q, m, o).0, now, p);
        }
      }
    }
  }

  /** The two ledger rows of a send and its end. */
  lemma BookedSendIsHarmless(s: State, now: nat, q: Phone, m: Pending, p: Phone)
    requires p != q && m.PSend? && m.toAddress.Some?
    ensures var to := m.toPhone.Or(m.toAddress.value);
            var s3 := s.AddRow(LedgerRow(q, Send, m.amount, Some(to), now));
            var s4 := if m.toPhone.Some? then s3.AddRow(LedgerRow(m.toPhone.value, Receive, m.amount, Some(q), now)) else s3;
            Harmless(s, FinishFx(s4, q, m.key, Sent(m.amount, m.toPhone.Or(m.toLabel))).0, now, p)
  {
    var to := m.toPhone.Or(m.toAddress.value);
    var r := LedgerRow(q, Send, m.amount, Some(to), now);
    var s3 := s.AddRow(r);
    RowIsHarmless(s, now, r, p);
    if m.toPhone.Some? {
      var r4 := LedgerRow(m.toPhone.value, Receive, m.amount, Some(q), now);
      RowIsHarmless(s3, now, r4, p);
      HarmlessChain(s, s3, s3.AddRow(r4), now, p);
      FinishIsHarmless(s3.AddRow(r4), now, q, m.key, Sent(m.amount, m.toPhone.Or(m.toLabel)), p);
      HarmlessChain(s, s3.AddRow(r4), FinishFx(s3.AddRow(r4), q, m.key, Sent(m.amount, m.toPhone.Or(m.toLabel))).0, now, p);
    } else {
      FinishIsHarmless(s3, now, q, m.key, Sent(m.amount, m.toPhone.Or(m.toLabel)), p);
      HarmlessChain(s, s3, FinishFx(s3, q, m.key, Sent(m.amount, m.toPhone.Or(m.toLabel))).0, now, p);
    }
  }

  lemma SwapMoveIsHarmless(s: State, now: nat, q: Phone, m: Pending, o: Outcome, got: nat, p: Phone)
    requires p != q && m.PSwap?
    ensures Harmless(s, SwapMove(s, q, m, o, got).0, now, p)
  {
    IdleIsHarmless(s, now, p);
    TransferIsHarmless(s, now, q, POOL, m.amount, o, p);
    CreditIsHarmless(s, now, WalletOf(q), got, p);
  }

  lemma SwapIsHarmlessToOthers(s: State, now: nat, q: Phone, m: Pending, o: Outcome, got: nat, p: Phone)
    requires p != q && m.PSwap?
    ensures Harmless(s, SwapFx(s, now, q, m, o, got).0, now, p)
  {
    IdleIsHarmless(s, now, p);
    if m.key !in s.idem {
      var s1 := s.(idem := s.idem[m.key := InFlight]);
      StartIsHarmless(s, now, m.key, p);
      var (s2, ok) := SwapMove(s1, q, m, o, got);
      SwapMoveIsHarmless(s1, now, q, m, o, got, p);
      HarmlessChain(s, s1, s2, now, p);
      if ok {
        var row := LedgerRow(q, Swap, if m.tokenIn == USDC then m.amount else 0, None, now);
        RowIsHarmless(s2, now, row, p);
        FinishIsHarmless(s2.AddRow(row), now, q, m.key, Swapped(m.amount, got), p);
        HarmlessChain(s, s2, s2.AddRow(row), now, p);
        HarmlessChain(s, s2.AddRow(row), FinishFx(s2.AddRow(row), q, m.key, Swapped(m.amount, got)).0, now, p);
      }
    }
  }

  lemma KnowingIsHarmless(s: State, now: nat, q: Phone, p: Phone)
    ensures Harmless(s, s.WithUser(q), now, p)
  {
    var t := s.WithUser(q);
    assert t == s.(users := t.users);
    HouseworkIsHarmless(s, t, now, p);
  }

  lemma AirtimeMoveIsHarmless(c: Config, s: State, now: nat, q: Phone, charge: nat, env: Env, p: Phone)
    requires c.Ordinary(p) && p != q
    ensures Harmless(s, AirtimeMove(c, s, q, charge, env).0, now, p)
  {
    hide State.Transfer, State.WithUser, Harmless;
    var e := s.WithUser(c.sink);
    KnowingIsHarmless(s, now, c.sink, p);
    var (t, ok) := e.Transfer(q, WalletOf(c.sink), charge, env.outcome);
    TransferIsHarmless(e, now, q, WalletOf(c.sink), charge, env.outcome, p);
    HarmlessChain(s, e, t, now, p);
    if ok && !env.delivered && q in t.users {
      TransferIsHarmless(t, now, c.sink, WalletOf(q), charge, env.refund, p);
      HarmlessChain(s, t, t.Transfer(c.sink, WalletOf(q), charge, env.refund).0, now, p);
    }
  }

  lemma TopupIsHarmlessToOthers(c: Config, s: State, now: nat, q: Phone, m: Pending, env: Env, p: Phone)
    requires c.Ordinary(p) && p != q && m.PTopup?
    ensures Harmless(s, TopupFx(c, s, now, q, m, env).0, now, p)
  {
    IdleIsHarmless(s, now, p);
    if m.key !in s.idem {
      var s1 := s.(idem := s.idem[m.key := InFlight]);
      StartIsHarmless(s, now, m.key, p);
      var (s2, ok) := AirtimeMove(c, s1, q, m.charge, env);
      AirtimeMoveIsHarmless(c, s1, now, q, m.charge, env, p);
      HarmlessChain(s, s1, s2, now, p);
      if ok {
        var row := LedgerRow(q, Airtime, m.charge, Some(m.msisdn), now);
        RowIsHarmless(s2, now, row, p);
        FinishIsHarmless(s2.AddRow(row), now, q, m.key, ToppedUp(m.charge), p);
        HarmlessChain(s, s2, s2.AddRow(row), now, p);
        HarmlessChain(s, s2.AddRow(row), FinishFx(s2.AddRow(row), q, m.key, ToppedUp(m.charge)).0, now, p);
      }
    }
  }

  lemma PaymentIsHarmlessToOthers(c: Config, s: State, now: nat, q: Phone, m: Pending, env: Env, p: Phone)
    requires c.Ordinary(p) && p != q && Money(m)
    ensures Harmless(s, PayFx(c, s, now, q, m, env).0, now, p)
  {
    match m
    case PSend(_, _, _, _, _, _, _) => SendIsHarmlessToOthers(c, s, now, q, m, env.outcome, p);
    case PSwap(_, _, _, _) => SwapIsHarmlessToOthers(s, now, q, m, env.outcome, env.got, p);
    case PTopup(_, _, _) => TopupIsHarmlessToOthers(c, s, now, q, m, env, p);
  }

  // ----- what the phone itself can do -----

  /** The policy gate accepted this request in state s and it becomes the order m. */
  ghost predicate Accepted(c: Config, s: State, now: nat, p: Phone, intent: Intent, m: Pending)
    requires |c.tiers| == 3
  {
    match intent
    case SendTo(amount, to, memo) =>
      && Resolve(c, s, p, to).Some?
      && var q := Resolve(c, s, p, to).value;
         && m == PSend(amount, q.title, q.address, q.phone, q.pendingClaim, s.nextKey, memo)
         && SendGate(c, s, now, p, amount, q.title, q.phone).0 == Confirm
    case SwapFor(amount, tokenIn, tokenOut) =>
      && m == PSwap(amount, tokenIn, tokenOut, s.nextKey)
      && SwapGate(c, s, now, p, amount, tokenIn, tokenOut).0 == Confirm
    case Topup(face, euro, to) =>
      && var charge := AirtimeCharge(c, face, euro);
         && m == PTopup(charge, if to.Some? then NormalizePhone(to.value) else p, s.nextKey)
         && TopupGate(c, s, now, p, charge).0 == Confirm
    case LockSavings(amount, until) =>
      && until.Some? && m == PLock(amount, until.value) && amount <= s.Available(p, now)
    case _ => false
  }

  /** p asks for money to move and is accepted: the slot holds the order, nothing else changes but
      released locks and the key counter. */
  ghost predicate Opens(c: Config, s: State, t: State, now: nat, p: Phone, intent: Intent)
    requires |c.tiers| == 3
  {
    && p in s.users && Onboarded(s.users[p])
    && p in t.sessions && Accepted(c, s, now, p, intent, t.sessions[p])
    && t == s.(locks := t.locks, nextKey := t.nextKey, sessions := s.sessions[p := t.sessions[p]])
    && (t.locks == s.locks || t.locks == ReleaseRows(s.locks, p, now))
    && t.nextKey == s.nextKey + if Money(t.sessions[p]) then 1 else 0
  }

  /** The PIN was right and the account was not locked. */
  predicate Unlocks(s: State, now: nat, p: Phone, pin: Option<string>) {
    p in s.users && Onboarded(s.users[p]) && !PinLocked(s.users[p], now) && pin.Some? && PinMatches(s.users[p], pin.value)
  }

  /** p pays: the pending order, never tried before, runs after a good PIN. */
  ghost predicate Pays(c: Config, s: State, t: State, now: nat, p: Phone, pin: Option<string>, env: Env) {
    && Unlocks(s, now, p, pin)
    && p in s.sessions && Money(s.sessions[p]) && KeyOf(s.sessions[p]) !in s.idem
    && t == PayFx(c, s.ClearFails(p), now, p, s.sessions[p], env).0
  }

  ghost predicate Locks(s: State, t: State, now: nat, p: Phone) {
    && p in s.users && p in s.sessions && s.sessions[p].PLock?
    && t == s.ClearFails(p).(
         locks := s.locks + [LockRow(p, s.sessions[p].amount, s.sessions[p].unlockAt, true)],
         sessions := s.sessions - {p},
         ledger := s.ledger + [LedgerRow(p, SavingsLock, s.sessions[p].amount, None, now)])
  }

  ghost predicate Freezes(s: State, t: State, now: nat, p: Phone, pin: Option<string>) {
    && Unlocks(s, now, p, pin) && p in s.sessions && s.sessions[p].PPolicy?
    && t == s.ClearFails(p).(
         rules := FreezeRows(RevokeRows(s.rules, p), p, s.sessions[p].rules),
         sessions := s.sessions - {p})
  }

  /** Said by p itself: the intent as dispatch saw it. */
  ghost predicate By(s: State, i: Input, p: Phone) {
    i.Said? && NormalizePhone(i.raw) == p
  }

  function IntentOf(s: State, i: Input): Intent
    requires i.Said?
  {
    ExpandDigits(s, NormalizePhone(i.raw), i.m.intent)
  }

  /** The PIN a message offers to a payment. */
  function PinOf(s: State, i: Input): Option<string>
    requires i.Said?
  {
    var n := IntentOf(s, i);
    if n.ConfirmWith? then n.pin else None
  }

  /** p was the account of a chat whose contact was shared: it is gone, and nothing else of weight
      changed. */
  ghost predicate Leaves(s: State, t: State, p: Phone) {
    && Channels.Dropped(s, t, p)
    && t == s.(users := t.users, sessions := t.sessions, contacts := t.contacts, links := t.links)
  }

  ghost predicate Effect(c: Config, s: State, t: State, i: Input, p: Phone)
    requires |c.tiers| == 3
  {
    || Harmless(s, t, i.at, p)
    || Leaves(s, t, p)
    || (By(s, i, p) && (
          || Opens(c, s, t, i.at, p, IntentOf(s, i))
          || Pays(c, s, t, i.at, p, PinOf(s, i), i.m.env)
          || Locks(s, t, i.at, p)
          || (exists pin :: Freezes(s, t, i.at, p, pin))))
  }
}
