/** When gas eats into locked savings.  The gate does not know the gas, so a payment that it accepts can
    take the wallet below the locks: exactly when, and a run in which it happens. */
module Shortfall {
  import opened Text
  import opened Tables
  import opened Settings
  import opened Policy
  import opened Payees
  import opened Pipeline
  import opened Runs
  import opened Effects
  import opened Payments
  import opened Scenes
  import Claims

  // ----- what a payment takes -----

  /** What paying the order takes out of the wallet of p; negative if more comes in. */
  function Leaving(c: Config, s: State, now: nat, p: Phone, m: Pending, env: Env): int
    requires Money(m)
  {
    match m
    case PSend(amount, _, toAddress, toPhone, pendingClaim, _, _) =>
      if pendingClaim && toPhone.Some? then if Claims.CanOpen(c, s, now, p) then Debit(s, p, amount, env.outcome) else 0
      else if toAddress.None? then 0
      else Debit(s, p, amount, env.outcome) - (if toAddress.value == WalletOf(p) && !Fails(s, p, amount, env.outcome) then amount else 0)
    case PSwap(amount, tokenIn, tokenOut, _) =>
      if tokenIn == tokenOut || (tokenIn == USDC && amount > s.Bal(p)) then 0
      else if tokenIn == USDC then Debit(s, p, amount, env.outcome)
      else if tokenOut == USDC && !env.outcome.Threw? then 0 - env.got as int
      else 0
    case PTopup(charge, _, _) => Debit(s, p, charge, env.outcome) - RefundOf(c, s, p, charge, env)
  }

  lemma TransferTakes(s: State, p: Phone, to: string, amount: nat, o: Outcome)
    requires p in s.users
    ensures var (t, ok) := s.Transfer(p, to, amount, o);
            && t.Bal(p) == s.Bal(p) - Debit(s, p, amount, o) + (if to == WalletOf(p) && !Fails(s, p, amount, o) then amount else 0)
            && (ok <==> !Fails(s, p, amount, o) && o.Landed?)
            && t == s.(balance := t.balance)
  {
  }

  lemma TransferBrings(s: State, from: Phone, p: Phone, amount: nat, o: Outcome)
    requires from in s.users && from != p
    ensures var t := s.Transfer(from, WalletOf(p), amount, o).0;
            t.Bal(p) == s.Bal(p) + if Fails(s, from, amount, o) then 0 else amount
  {
    WalletsDiffer(from, p);
  }

  lemma HoldTakes(c: Config, s: State, now: nat, p: Phone, to: Phone, amount: nat, o: Outcome)
    requires p in s.users && p != c.escrow
    ensures Claims.Hold(c, s, now, p, to, amount, o).0.Bal(p) == s.Bal(p) - if Claims.CanOpen(c, s, now, p) then Debit(s, p, amount, o) else 0
  {
    hide Claims.WithEscrow, State.Transfer, ClaimsOpened;
    if Claims.CanOpen(c, s, now, p) {
      var e := Claims.WithEscrow(c, s);
      Claims.EscrowUserOnly(c, s);
      WalletsDiffer(p, c.escrow);
      TransferTakes(e, p, WalletOf(c.escrow), amount, o);
      assert Claims.Hold(c, s, now, p, to, amount, o).0.balance == e.Transfer(p, WalletOf(c.escrow), amount, o).0.balance;
    }
  }

  lemma HeldSendTakes(c: Config, s: State, now: nat, p: Phone, m: Pending, env: Env)
    requires m.PSend? && m.key !in s.idem && p in s.users && p != c.escrow && m.pendingClaim && m.toPhone.Some?
    ensures SendFx(c, s, now, p, m, env.outcome).0.Bal(p) == s.Bal(p) - Leaving(c, s, now, p, m, env)
  {
    hide Claims.Hold, ClaimsOpened;
    var s1, t := s.(idem := s.idem[m.key := InFlight]), SendFx(c, s, now, p, m, env.outcome).0;
    HoldTakes(c, s1, now, p, m.toPhone.value, m.amount, env.outcome);
    assert t.balance == Claims.Hold(c, s1, now, p, m.toPhone.value, m.amount, env.outcome).0.balance;
  }

  lemma PlainSendTakes(c: Config, s: State, now: nat, p: Phone, m: Pending, env: Env)
    requires m.PSend? && m.key !in s.idem && p in s.users && !(m.pendingClaim && m.toPhone.Some?)
    ensures SendFx(c, s, now, p, m, env.outcome).0.Bal(p) == s.Bal(p) - Leaving(c, s, now, p, m, env)
  {
    hide State.Transfer;
    var s1, t := s.(idem := s.idem[m.key := InFlight]), SendFx(c, s, now, p, m, env.outcome).0;
    if m.toAddress.Some? {
      TransferTakes(s1, p, m.toAddress.value, m.amount, env.outcome);
      assert t.balance == s1.Transfer(p, m.toAddress.value, m.amount, env.outcome).0.balance;
    } else {
      assert t == s1;
    }
  }

  lemma SendTakes(c: Config, s: State, now: nat, p: Phone, m: Pending, env: Env)
    requires m.PSend? && m.key !in s.idem && p in s.users && p != c.escrow
    ensures SendFx(c, s, now, p, m, env.outcome).0.Bal(p) == s.Bal(p) - Leaving(c, s, now, p, m, env)
  {
    hide SendFx, Leaving;
    if m.pendingClaim && m.toPhone.Some? {
      HeldSendTakes(c, s, now, p, m, env);
    } else {
      PlainSendTakes(c, s, now, p, m, env);
    }
  }

  lemma SwapMoveTakes(c: Config, s: State, now: nat, p: Phone, m: Pending, env: Env)
    requires m.PSwap? && p in s.users
    ensures SwapMove(s, p, m, env.outcome, env.got).0.Bal(p) == s.Bal(p) - Leaving(c, s, now, p, m, env)
  {
    hide State.Transfer, Gas;
    TransferTakes(s, p, POOL, m.amount, env.outcome);
    assert POOL != WalletOf(p) by {
      assert |WalletOf(p)| >= 7 && |POOL| == 4;
    }
  }

  lemma SwapTakes(c: Config, s: State, now: nat, p: Phone, m: Pending, env: Env)
    requires m.PSwap? && m.key !in s.idem && p in s.users
    ensures SwapFx(s, now, p, m, env.outcome, env.got).0.Bal(p) == s.Bal(p) - Leaving(c, s, now, p, m, env)
  {
    hide SwapMove, Leaving;
    var s1, t := s.(idem := s.idem[m.key := InFlight]), SwapFx(s, now, p, m, env.outcome, env.got).0;
    SwapMoveTakes(c, s1, now, p, m, env);
    SameLeaving(c, s, s1, now, p, m, env);
    assert t.balance == SwapMove(s1, p, m, env.outcome, env.got).0.balance;
  }

  lemma TopupTakes(c: Config, s: State, now: nat, p: Phone, m: Pending, env: Env)
    requires m.PTopup? && m.key !in s.idem && p in s.users && p != c.sink
    ensures TopupFx(c, s, now, p, m, env).0.Bal(p) == s.Bal(p) - Leaving(c, s, now, p, m, env)
  {
    hide AirtimeMove;
    var s1, t := s.(idem := s.idem[m.key := InFlight]), TopupFx(c, s, now, p, m, env).0;
    AirtimeTakes(c, s1, p, m.charge, env);
    assert t.balance == AirtimeMove(c, s1, p, m.charge, env).0.balance;
  }

  lemma AirtimeTakes(c: Config, s: State, p: Phone, charge: nat, env: Env)
    requires p in s.users && p != c.sink
    ensures AirtimeMove(c, s, p, charge, env).0.Bal(p) == s.Bal(p) - Debit(s, p, charge, env.outcome) + RefundOf(c, s, p, charge, env)
  {
    hide State.Transfer, State.WithUser, State.Bal, Gas;
    var e := s.WithUser(c.sink);
    SinkIsKnown(c, s, p);
    var (t, ok) := e.Transfer(p, WalletOf(c.sink), charge, env.outcome);
    WalletsDiffer(p, c.sink);
    TransferTakes(e, p, WalletOf(c.sink), charge, env.outcome);
    TransferBrings(e, p, c.sink, charge, env.outcome);
    if ok && !env.delivered {
      TransferBrings(t, c.sink, p, charge, env.refund);
    }
  }

  lemma SinkIsKnown(c: Config, s: State, p: Phone)
    ensures var e := s.WithUser(c.sink);
            && c.sink in e.users && (p in s.users ==> p in e.users) && e.Bal(p) == s.Bal(p) && e.Bal(c.sink) == s.Bal(c.sink)
            && forall o :: Gas(e, p, o) == Gas(s, p, o)
  {
  }

  lemma PaymentTakes(c: Config, s: State, now: nat, p: Phone, m: Pending, env: Env)
    requires Money(m) && KeyOf(m) !in s.idem && p in s.users && c.Ordinary(p)
    ensures PayFx(c, s, now, p, m, env).0.Bal(p) == s.Bal(p) - Leaving(c, s, now, p, m, env)
  {
    hide SendFx, SwapFx, TopupFx, Leaving;
    if m.PSend? {
      SendTakes(c, s, now, p, m, env);
    } else if m.PSwap? {
      SwapTakes(c, s, now, p, m, env);
    } else {
      TopupTakes(c, s, now, p, m, env);
    }
  }

  /** Exactly when a payment keeps the locked savings covered: if what it takes, gas included, still fits
      beside them. */
  lemma PaymentsKeepCoverageExactly(c: Config, run: seq<Input>, t: seq<State>, k: nat, p: Phone)
    requires Run(c, run, t) && k < |run| && c.Ordinary(p)
    requires By(t[k], run[k], p) && Pays(c, t[k], t[k + 1], run[k].at, p, PinOf(t[k], run[k]), run[k].m.env)
    ensures t[k + 1].Locked(p, run[k].at) <= t[k + 1].Bal(p)
       <==> t[k].Locked(p, run[k].at) + Leaving(c, t[k], run[k].at, p, t[k].sessions[p], run[k].m.env) <= t[k].Bal(p)
  {
    hide Step, FromPeople, PayFx, Leaving, SumLocked;
    var s, m, now := t[k].ClearFails(p), t[k].sessions[p], run[k].at;
    PayingSpends(c, s, now, p, m, run[k].m.env);
    PaymentTakes(c, s, now, p, m, run[k].m.env);
    SameLeaving(c, t[k], s, now, p, m, run[k].m.env);
  }

  lemma SameLeaving(c: Config, s: State, t: State, now: nat, p: Phone, m: Pending, env: Env)
    requires Money(m) && t.balance == s.balance && t.claims == s.claims
    ensures Leaving(c, s, now, p, m, env) == Leaving(c, t, now, p, m, env)
  {
  }

  // ----- a run -----

  const LOCK := Say(LockSavings(35_000_000, Some(1_000)))
  const PAY := Say(SendTo(5_000_000, SHOP, ""))
  const DEARLY := SayWith(ANSWER, PLAIN.(outcome := Landed(1)))
  const REST := [LOCK, YES, PAY, DEARLY]

  /** Ben has locked thirty-five of his forty dollars. */
  const SAVED := START.(locks := [LockRow(BEN, 35_000_000, 1_000, true)], ledger := [LedgerRow(BEN, SavingsLock, 35_000_000, None, 0)])

  lemma LockIsAsked()
    ensures Step(SceneConfig(), START, LOCK) == START.PutPending(BEN, Some(PLock(35_000_000, 1_000)))
  {
    hide Step;
    SetUp();
    Unlocked(START);
    Asked(START, LOCK.m.intent);
    assert RequestLockFx(START, 0, BEN, 35_000_000, Some(1_000)).0 == START.PutPending(BEN, Some(PLock(35_000_000, 1_000)));
  }

  lemma LockIsClosed()
    ensures Step(SceneConfig(), START.PutPending(BEN, Some(PLock(35_000_000, 1_000))), YES) == SAVED
  {
    hide Step;
    var t := START.PutPending(BEN, Some(PLock(35_000_000, 1_000)));
    Spoken(t, ANSWER, PLAIN);
    assert t.WithUser(BEN) == t && t.ClearFails(BEN) == t;
    assert t.sessions - {BEN} == START.sessions;
    assert ConfirmLockFx(SceneConfig(), t, 0, BEN, t.sessions[BEN], Some("1234")).0 == SAVED;
    assert ConfirmFx(SceneConfig(), t, 0, BEN, Some("1234"), false, PLAIN).0 == SAVED;
  }

  lemma SavedIsLocked()
    ensures Ready(SAVED) && SAVED.Locked(BEN, 0) == 35_000_000 && SAVED.ReleaseMatured(BEN, 0) == SAVED && SAVED.Bal(BEN) == 40_000_000
    ensures SentToday(SAVED, BEN, 0) == 0
  {
    SetUp();
    assert SAVED.locks[..0] == [] && SAVED.ledger[..0] == [];
    assert SumLocked([], BEN, 0) == 0;
    assert ReleaseRows([], BEN, 0) == [];
    assert SumKind([], BEN, Send, 0) == 0 && SumKind([], BEN, EscrowHold, 0) == 0;
  }

  lemma GatePasses()
    ensures SendGate(SceneConfig(), SAVED, 0, BEN, 5_000_000, SHOP, None) == (Confirm, SAVED)
  {
    hide SumKind, SumTo, SumLocked, ReleaseRows;
    SavedIsLocked();
    assert SAVED.Rules(BEN) == [];
    assert LimitsFor(SceneConfig(), SAVED.Tier(BEN)) == LIMIT;
  }

  lemma PayIsOrdered()
    ensures Step(SceneConfig(), SAVED, PAY) == Ordered(SAVED, AddressOrder(5_000_000, SHOP, SHOP, SAVED.nextKey))
  {
    hide Step, Resolve, SendGate;
    SavedIsLocked();
    Asked(SAVED, PAY.m.intent);
    ShopsResolve(SAVED, SHOP);
    GatePasses();
  }

  lemma Paid() returns (t: State)
    ensures t == Play(START, REST) && t.locks == SAVED.locks && t.Bal(BEN) == 34_999_999
  {
    hide Step;
    LockIsAsked();
    LockIsClosed();
    SavedIsLocked();
    PayIsOrdered();
    BenIsBen();
    t := AddressRound(SAVED, AddressOrder(5_000_000, SHOP, SHOP, SAVED.nextKey), 1);
    assert REST[..3][..2] == REST[..2] && REST[..2][..1] == REST[..1] && REST[..1][..0] == [];
    assert Play(START, REST[..1]) == Step(SceneConfig(), START, LOCK);
    assert Play(START, REST[..2]) == SAVED;
    assert Play(START, REST[..3]) == Step(SceneConfig(), SAVED, PAY);
  }

  /** The last state of the run has more locked than the wallet holds. */
  ghost predicate FallsShort(run: seq<Input>, t: seq<State>, p: Phone) {
    Run(SceneConfig(), run, t) && t[|run|].Locked(p, Clock(run, |run|)) > t[|run|].Bal(p)
  }

  lemma BenSaysTheRest()
    ensures forall k | 0 <= k < |REST| :: FromPeople(SceneConfig(), REST[k]) && REST[k].at == 0
  {
    hide FromPeople;
    BenIsAPerson(LOCK.m.intent, PLAIN);
    BenIsAPerson(ANSWER, PLAIN);
    BenIsAPerson(PAY.m.intent, PLAIN);
    BenIsAPerson(ANSWER, DEARLY.m.env);
  }

  /** A run from empty tables: forty dollars deposited, thirty-five locked, five sent with one
      micro-dollar of gas, and the locked savings are no longer in the wallet. */
  lemma GasCanEatLockedSavings()
    ensures SceneConfig().Ordinary(BEN) && exists run: seq<Input>, t: seq<State> :: FallsShort(run, t, BEN)
  {
    hide Run, Step, States, Play, SumLocked, FromPeople;
    BenSaysTheRest();
    SceneIsARun(REST);
    var u := Paid();
    SavedIsLocked();
    var run, t := SETUP + REST, States(SceneConfig(), SETUP + REST);
    assert REST[..4] == REST;
    assert t[|SETUP| + 4] == Play(START, REST[..4]);
    assert Clock(run, |run|) == 0;
    assert u.Locked(BEN, 0) == SAVED.Locked(BEN, 0);
    assert FallsShort(run, t, BEN);
  }
}
