/** What a step leaves of the slow tables: standing orders are only opened and cancelled, and names and
    chat links change only by claiming, dropping and sharing. */
module Registers {
  import opened Text
  import opened Tables
  import opened Settings
  import opened Policy
  import opened Payees
  import opened Pipeline
  import opened Runs
  import Channels
  import Claims
  import Names

  /** The .hotline name of p, on its user row. */
  function NameOf(s: State, p: Phone): Option<string> {
    if p in s.users then s.users[p].hotlineName else None
  }

  /** The same name rows and links, and no user lost or renamed. */
  ghost predicate Rosters(s: State, t: State) {
    && t.names == s.names && t.links == s.links && s.users.Keys <= t.users.Keys
    && forall p :: NameOf(t, p) == NameOf(s, p)
  }

  /** Orders, names and links are as they were. */
  ghost predicate Still(s: State, t: State) {
    t.orders == s.orders && Rosters(s, t)
  }

  lemma StillChain(s: State, t: State, u: State)
    requires Still(s, t) && Still(t, u)
    ensures Still(s, u)
  {
  }

  /** The four tables with users, orders, names and links. */
  predicate SameSlow(s: State, t: State) {
    t.orders == s.orders && t.names == s.names && t.links == s.links && t.users == s.users
  }

  lemma SameUsersStill(s: State, t: State)
    requires SameSlow(s, t)
    ensures Still(s, t)
  {
  }

  lemma OneUserStill(s: State, t: State, p: Phone, u: User)
    requires t.orders == s.orders && t.names == s.names && t.links == s.links && t.users == s.users[p := u]
    requires u.hotlineName == NameOf(s, p)
    ensures Still(s, t)
  {
  }

  lemma KnowingStill(s: State, p: Phone)
    ensures Still(s, s.WithUser(p))
  {
    if p !in s.users {
      OneUserStill(s, s.WithUser(p), p, NEW_USER);
    } else {
      SameUsersStill(s, s);
    }
  }

  // ----- escrow jobs -----

  lemma EscrowWalletStill(c: Config, s: State)
    ensures Still(s, Claims.WithEscrow(c, s))
  {
    var t := s.WithUser(c.escrow);
    KnowingStill(s, c.escrow);
    OneUserStill(t, Claims.WithEscrow(c, s), c.escrow, t.users[c.escrow].(name := Some("Escrow")));
    StillChain(s, t, Claims.WithEscrow(c, s));
  }

  lemma TransferStill(s: State, from: Phone, to: string, amount: nat, o: Outcome)
    ensures SameSlow(s, s.Transfer(from, to, amount, o).0) && Still(s, s.Transfer(from, to, amount, o).0)
  {
    hide State.Transfer, Still;
    TransferShape(s, from, to, amount, o);
    SameUsersStill(s, s.Transfer(from, to, amount, o).0);
  }

  lemma PayOutStill(c: Config, s: State, now: nat, id: nat, to: Phone, from: Phone, status: ClaimStatus, kind: Kind, o: Outcome)
    requires id < |s.claims|
    ensures SameSlow(s, Claims.PayOut(c, s, now, id, to, from, status, kind, o).0)
  {
    hide State.Transfer, State.Bal, Claims.Payable, WalletOf;
    var pay := Claims.Payable(s.claims[id].amount, s.Bal(c.escrow), c.reserve);
    if pay > 0 {
      TransferShape(s, c.escrow, WalletOf(to), pay, o);
      var (t, ok) := s.Transfer(c.escrow, WalletOf(to), pay, o);
      assert SameSlow(s, t);
      if ok {
        assert SameSlow(t, Claims.Mark(t, id, status).AddRow(LedgerRow(to, kind, pay, Some(from), now)));
      }
    }
  }

  lemma PayOneStill(c: Config, s: State, now: nat, id: nat, job: Claims.Job, o: Outcome)
    requires id < |s.claims|
    ensures Still(s, Claims.PayOne(c, s, now, id, job, o).0)
  {
    hide Claims.PayOut, Still;
    var k := s.claims[id];
    if job.Release? {
      PayOutStill(c, s, now, id, job.payee, k.from, Claimed, EscrowClaim, o);
    } else if k.from in s.users {
      PayOutStill(c, s, now, id, k.from, k.to, Refunded, EscrowRefund, o);
    }
    SameUsersStill(s, Claims.PayOne(c, s, now, id, job, o).0);
  }

  lemma {:induction false} PayManyStill(c: Config, s: State, now: nat, ids: seq<nat>, job: Claims.Job, outcomes: seq<Outcome>, n: nat)
    requires n <= |ids| && forall k | k in ids :: k < |s.claims|
    ensures Still(s, Claims.PayMany(c, s, now, ids, job, outcomes, n).0)
  {
    hide Claims.PayOne, Still;
    if n == 0 {
      SameUsersStill(s, s);
    } else {
      PayManyStill(c, s, now, ids, job, outcomes, n - 1);
      Claims.PayManyStep(c, s, now, ids, job, outcomes, n);
      var t := Claims.PayMany(c, s, now, ids, job, outcomes, n - 1).0;
      PayOneStill(c, t, now, ids[n - 1], job, Claims.OutcomeAt(outcomes, n - 1));
      StillChain(s, t, Claims.PayMany(c, s, now, ids, job, outcomes, n).0);
    }
  }

  lemma JobStill(c: Config, s: State, now: nat, ids: seq<nat>, job: Claims.Job, outcomes: seq<Outcome>)
    requires forall k | k in ids :: k < |s.claims|
    ensures Still(s, Claims.PayMany(c, Claims.WithEscrow(c, s), now, ids, job, outcomes, |ids|).0)
  {
    hide Claims.PayMany, Still;
    var e := Claims.WithEscrow(c, s);
    EscrowWalletStill(c, s);
    PayManyStill(c, e, now, ids, job, outcomes, |ids|);
    StillChain(s, e, Claims.PayMany(c, e, now, ids, job, outcomes, |ids|).0);
  }

  lemma FulfilStill(c: Config, s: State, now: nat, q: Phone, outcomes: seq<Outcome>)
    ensures Still(s, Claims.Fulfil(c, s, now, q, outcomes).0)
  {
    hide Claims.PayMany, Still;
    var ids := Claims.HeldClaimsOf(s.claims, q);
    SameUsersStill(s, s);
    if ids != [] && q in s.users {
      JobStill(c, s, now, ids, Claims.Release(q), outcomes);
    }
  }

  lemma ExpireStill(c: Config, s: State, now: nat, outcomes: seq<Outcome>)
    ensures Still(s, Claims.Expire(c, s, now, outcomes).0)
  {
    hide Claims.PayMany, Still;
    JobStill(c, s, now, Claims.HeldPast(s.claims, now), Claims.Refund, outcomes);
  }

  // ----- payments -----

  lemma HoldStill(c: Config, s: State, now: nat, q: Phone, to: Phone, amount: nat, o: Outcome)
    ensures Still(s, Claims.Hold(c, s, now, q, to, amount, o).0)
  {
    hide ClaimsOpened, Claims.WithEscrow;
    var e := Claims.WithEscrow(c, s);
    EscrowWalletStill(c, s);
    var u, t := e.Transfer(q, WalletOf(c.escrow), amount, o).0, Claims.Hold(c, s, now, q, to, amount, o).0;
    TransferStill(e, q, WalletOf(c.escrow), amount, o);
    StillChain(s, e, u);
    if t == s {
      SameUsersStill(s, s);
    } else {
      SameUsersStill(u, t);
      StillChain(s, u, t);
    }
  }

  lemma PlainSendStill(c: Config, s: State, now: nat, q: Phone, m: Pending, o: Outcome)
    requires m.PSend? && m.key !in s.idem && !(m.pendingClaim && m.toPhone.Some?)
    ensures Still(s, SendFx(c, s, now, q, m, o).0)
  {
    hide State.Transfer, Still;
    var s1, t := s.(idem := s.idem[m.key := InFlight]), SendFx(c, s, now, q, m, o).0;
    if m.toAddress.Some? {
      TransferShape(s1, q, m.toAddress.value, m.amount, o);
      var (s2, ok) := s1.Transfer(q, m.toAddress.value, m.amount, o);
      assert SameSlow(s, s2) && SameSlow(s2, t);
    }
    SameUsersStill(s, t);
  }

  lemma HeldSendStill(c: Config, s: State, now: nat, q: Phone, m: Pending, o: Outcome)
    requires m.PSend? && m.key !in s.idem && m.pendingClaim && m.toPhone.Some?
    ensures Still(s, SendFx(c, s, now, q, m, o).0)
  {
    hide Claims.Hold, Still;
    var s1, t := s.(idem := s.idem[m.key := InFlight]), SendFx(c, s, now, q, m, o).0;
    var u := Claims.Hold(c, s1, now, q, m.toPhone.value, m.amount, o).0;
    SameUsersStill(s, s1);
    HoldStill(c, s1, now, q, m.toPhone.value, m.amount, o);
    StillChain(s, s1, u);
    SameUsersStill(u, t);
    StillChain(s, u, t);
  }

  lemma SendStill(c: Config, s: State, now: nat, q: Phone, m: Pending, o: Outcome)
    requires m.PSend?
    ensures Still(s, SendFx(c, s, now, q, m, o).0)
  {
    hide Claims.Hold, Still, SameSlow;
    if m.key in s.idem {
      SameUsersStill(s, s);
    } else if m.pendingClaim && m.toPhone.Some? {
      HeldSendStill(c, s, now, q, m, o);
    } else {
      PlainSendStill(c, s, now, q, m, o);
    }
  }

  lemma SwapMoveStill(s: State, q: Phone, m: Pending, o: Outcome, got: nat)
    requires m.PSwap?
    ensures SameSlow(s, SwapMove(s, q, m, o, got).0)
  {
    hide State.Transfer;
    TransferShape(s, q, POOL, m.amount, o);
  }

  lemma AirtimeMoveStill(c: Config, s: State, q: Phone, charge: nat, env: Env)
    ensures SameSlow(s.WithUser(c.sink), AirtimeMove(c, s, q, charge, env).0)
  {
    hide State.Transfer, State.WithUser;
    var e := s.WithUser(c.sink);
    TransferShape(e, q, WalletOf(c.sink), charge, env.outcome);
    TransferShape(e.Transfer(q, WalletOf(c.sink), charge, env.outcome).0, c.sink, WalletOf(q), charge, env.refund);
  }

  lemma SwapStill(s: State, now: nat, q: Phone, m: Pending, o: Outcome, got: nat)
    requires m.PSwap?
    ensures Still(s, SwapFx(s, now, q, m, o, got).0)
  {
    hide Still, SwapMove;
    SwapMoveStill(s.(idem := s.idem[m.key := InFlight]), q, m, o, got);
    SameUsersStill(s, SwapFx(s, now, q, m, o, got).0);
  }

  lemma TopupStill(c: Config, s: State, now: nat, q: Phone, m: Pending, env: Env)
    requires m.PTopup?
    ensures Still(s, TopupFx(c, s, now, q, m, env).0)
  {
    hide Still, AirtimeMove;
    var s1, t := s.(idem := s.idem[m.key := InFlight]), TopupFx(c, s, now, q, m, env).0;
    if m.key in s.idem {
      SameUsersStill(s, t);
    } else {
      AirtimeMoveStill(c, s1, q, m.charge, env);
      KnowingStill(s1, c.sink);
      SameUsersStill(s, s1);
      StillChain(s, s1, s1.WithUser(c.sink));
      SameUsersStill(s1.WithUser(c.sink), t);
      StillChain(s, s1.WithUser(c.sink), t);
    }
  }

  lemma PaymentStill(c: Config, s: State, now: nat, q: Phone, m: Pending, env: Env)
    requires m.PSend? || m.PSwap? || m.PTopup?
    ensures Still(s, PayFx(c, s, now, q, m, env).0)
  {
    hide SendFx, SwapFx, TopupFx, Still;
    if m.PSend? {
      SendStill(c, s, now, q, m, env.outcome);
    } else if m.PSwap? {
      SwapStill(s, now, q, m, env.outcome, env.got);
    } else {
      TopupStill(c, s, now, q, m, env);
    }
  }

  // ----- confirming -----

  lemma FailingStill(c: Config, s: State, now: nat, q: Phone)
    requires q in s.users
    ensures Still(s, s.FailPin(q, now, c.maxFails, c.lockMs)) && Still(s, s.ClearFails(q))
  {
    hide Still;
    OneUserStill(s, s.FailPin(q, now, c.maxFails, c.lockMs), q, s.FailPin(q, now, c.maxFails, c.lockMs).users[q]);
    OneUserStill(s, s.ClearFails(q), q, s.ClearFails(q).users[q]);
  }

  lemma PinStepStill(c: Config, s: State, now: nat, q: Phone, pin: Option<string>)
    requires q in s.users
    ensures Still(s, PinStep(c, s, now, q, pin).0)
  {
    hide Still, State.FailPin, State.ClearFails;
    var u, t := s.users[q], PinStep(c, s, now, q, pin).0;
    FailingStill(c, s, now, q);
    var f := s.FailPin(q, now, c.maxFails, c.lockMs);
    if !Onboarded(u) || PinLocked(u, now) || pin.None? {
      SameUsersStill(s, t);
    } else if !PinMatches(u, pin.value) {
      SameUsersStill(f, t);
      StillChain(s, f, t);
    }
  }

  lemma ConfirmPaymentStill(c: Config, s: State, now: nat, q: Phone, m: Pending, pin: Option<string>, env: Env)
    requires q in s.users && (m.PSend? || m.PSwap? || m.PTopup?)
    ensures Still(s, ConfirmPaymentFx(c, s, now, q, m, pin, env).0)
  {
    hide PinStep, PayFx, Still;
    var t := PinStep(c, s, now, q, pin).0;
    PinStepStill(c, s, now, q, pin);
    PaymentStill(c, t, now, q, m, env);
    StillChain(s, t, PayFx(c, t, now, q, m, env).0);
  }

  lemma ConfirmRulesStill(c: Config, s: State, now: nat, q: Phone, draft: seq<FrozenRule>, pin: Option<string>)
    requires q in s.users
    ensures Still(s, ConfirmRulesFx(c, s, now, q, draft, pin).0)
  {
    hide FreezeRows, RevokeRows, Still, State.FailPin, State.ClearFails;
    var u, t := s.users[q], ConfirmRulesFx(c, s, now, q, draft, pin).0;
    FailingStill(c, s, now, q);
    if !Onboarded(u) || PinLocked(u, now) || pin.None? {
      SameUsersStill(s, t);
    } else if PinMatches(u, pin.value) {
      SameUsersStill(s.ClearFails(q), t);
      StillChain(s, s.ClearFails(q), t);
    }
  }

  lemma ConfirmLockStill(c: Config, s: State, now: nat, q: Phone, m: Pending, pin: Option<string>)
    requires q in s.users && m.PLock?
    ensures Still(s, ConfirmLockFx(c, s, now, q, m, pin).0)
  {
    hide Still, State.FailPin, State.ClearFails;
    var t := ConfirmLockFx(c, s, now, q, m, pin).0;
    FailingStill(c, s, now, q);
    if pin.None? {
      SameUsersStill(s, t);
    } else if PinMatches(s.users[q], pin.value) {
      SameUsersStill(s.ClearFails(q), t);
      StillChain(s, s.ClearFails(q), t);
    }
  }

  lemma SameRosters(s: State, t: State, u: State)
    requires Rosters(s, t) && u.names == t.names && u.links == t.links && u.users == t.users
    ensures Rosters(s, u)
  {
  }

  /** A confirmed standing order is one new row; everything else is still. */
  lemma ConfirmOrderAppends(c: Config, s: State, now: nat, q: Phone, m: Pending, pin: Option<string>)
    requires q in s.users && m.PStanding?
    ensures var t := ConfirmOrderFx(c, s, now, q, m, pin).0;
            && Rosters(s, t) && s.orders <= t.orders
  {
    hide Rosters, State.FailPin, State.ClearFails;
    var t := ConfirmOrderFx(c, s, now, q, m, pin).0;
    FailingStill(c, s, now, q);
    SameUsersStill(s, s);
    if pin.Some? && PinMatches(s.users[q], pin.value) {
      SameRosters(s, s.ClearFails(q), t);
    }
  }

  // ----- everything else -----

  lemma GreetStill(s: State, q: Phone)
    requires q in s.users
    ensures Still(s, GreetFx(s, q).0)
  {
    hide Still;
    SameUsersStill(s, GreetFx(s, q).0);
  }

  /** Registering the caller and then rewriting its row, all but its .hotline name. */
  lemma OwnRowStill(s: State, t: State, q: Phone, u: User)
    requires q in s.WithUser(q).users && t == s.WithUser(q).PutUser(q, u) && u.hotlineName == s.WithUser(q).users[q].hotlineName
    ensures Still(s, t)
  {
    hide Still;
    var w := s.WithUser(q);
    KnowingStill(s, q);
    OneUserStill(w, t, q, u);
    StillChain(s, w, t);
  }

  lemma NamingStill(s: State, q: Phone, name: string)
    ensures Still(s, FinishNamingFx(s, q, name).0)
  {
    hide Still, State.WithUser;
    assert q in s.WithUser(q).users by { RegisteredIsKnown(s, q); }
    var u := s.WithUser(q).users[q].(name := Some(name));
    var t := s.WithUser(q).PutUser(q, u);
    OwnRowStill(s, t, q, u);
    SameUsersStill(t, FinishNamingFx(s, q, name).0);
    StillChain(s, t, FinishNamingFx(s, q, name).0);
  }

  lemma JoinStill(s: State, q: Phone, name: Option<string>)
    ensures Still(s, JoinFx(s, q, name).0)
  {
    hide Still, State.WithUser;
    var w := s.WithUser(q);
    if name.Some? {
      NamingStill(s, q, name.value);
    } else {
      KnowingStill(s, q);
      assert q in w.users by { RegisteredIsKnown(s, q); }
      GreetStill(w, q);
      StillChain(s, w, GreetFx(w, q).0);
    }
  }

  lemma RegisteredIsKnown(s: State, q: Phone)
    ensures q in s.WithUser(q).users
  {
  }

  lemma SetPinStill(c: Config, s: State, now: nat, q: Phone, pin: string, payouts: seq<Outcome>)
    ensures Still(s, SetPinFx(c, s, now, q, pin, payouts).0)
  {
    hide Still, CompletePinFx;
    var w, t := s.WithUser(q), SetPinFx(c, s, now, q, pin, payouts).0;
    KnowingStill(s, q);
    if w.users[q].name.None? || Onboarded(w.users[q]) {
      SameUsersStill(w, t);
    } else {
      CompletionStill(c, w, now, q, pin, payouts);
    }
    StillChain(s, w, t);
  }

  lemma CompletionStill(c: Config, w: State, now: nat, q: Phone, pin: string, payouts: seq<Outcome>)
    requires q in w.users
    ensures Still(w, CompletePinFx(c, w, now, q, pin, payouts).0)
  {
    hide Still, Claims.Fulfil;
    var v := w.PutPin(q, pin);
    var u := v.PutPending(q, None);
    assert w.WithUser(q) == w;
    OneUserStill(w, v, q, v.users[q]);
    SameUsersStill(v, u);
    StillChain(w, v, u);
    FulfilStill(c, u, now, q, payouts);
    StillChain(w, u, Claims.Fulfil(c, u, now, q, payouts).0);
  }

  lemma ChangePinStill(s: State, q: Phone, oldPin: string, newPin: string)
    ensures Still(s, ChangePinFx(s, q, oldPin, newPin).0)
  {
    hide Still, State.WithUser;
    var w, t := s.WithUser(q), ChangePinFx(s, q, oldPin, newPin).0;
    assert q in w.users by { RegisteredIsKnown(s, q); }
    if PinMatches(w.users[q], oldPin) {
      OwnRowStill(s, t, q, w.users[q].(pin := Some(newPin), fails := 0, lockedUntil := None));
    } else {
      KnowingStill(s, q);
    }
  }

  lemma RecoveryStill(c: Config, s: State, now: nat, q: Phone, code: string)
    ensures Still(s, RecoverFx(c, s, now, q, code).0)
  {
    hide Still;
    var w, t := s.WithUser(q), RecoverFx(c, s, now, q, code).0;
    if w.users[q].pin.None? {
      KnowingStill(s, q);
    } else {
      OwnRowStill(s, t, q, w.users[q].(recovery := Some(Recovery(code, now + c.recoveryMs))));
    }
  }

  lemma RecoveryConfirmStill(c: Config, s: State, now: nat, q: Phone, code: string, pin: string)
    ensures Still(s, RecoverConfirmFx(c, s, now, q, code, pin).0)
  {
    hide Still, State.WithUser;
    var w, t := s.WithUser(q), RecoverConfirmFx(c, s, now, q, code, pin).0;
    assert q in w.users by { RegisteredIsKnown(s, q); }
    var u := w.users[q];
    KnowingStill(s, q);
    if u.recovery.None? {
    } else if u.recovery.value.expires < now {
      OwnRowStill(s, t, q, u.(recovery := None));
    } else if u.recovery.value.code == code {
      OwnRowStill(s, t, q, u.(pin := Some(pin), fails := 0, lockedUntil := None, recovery := None, riskUntil := Some(now + c.cooldownMs)));
    }
  }

  lemma SecurityStill(c: Config, s: State, now: nat, q: Phone)
    ensures Still(s, RiskFx(c, s, now, q).0) && Still(s, CallbackFx(c, s, now, q).0)
  {
    hide Still, State.WithUser;
    assert q in s.WithUser(q).users by { RegisteredIsKnown(s, q); }
    var u := s.WithUser(q).users[q];
    OwnRowStill(s, RiskFx(c, s, now, q).0, q, u.(riskUntil := Some(now + c.cooldownMs)));
    OwnRowStill(s, CallbackFx(c, s, now, q).0, q, u.(callbackUntil := Some(now + c.callbackMs)));
  }

  lemma AccountStill(c: Config, s: State, now: nat, q: Phone, intent: Intent, env: Env)
    requires IsAccountIntent(intent)
    ensures Still(s, AccountFx(c, s, now, q, intent, env).0)
  {
    hide Still, FinishNamingFx, JoinFx, SetPinFx, ChangePinFx, RecoverFx, RecoverConfirmFx, RiskFx, CallbackFx;
    if intent.SetName? {
      NamingStill(s, q, intent.name);
    } else if intent.Hello? {
      JoinStill(s, q, None);
    } else if intent.SetPinTo? {
      SetPinStill(c, s, now, q, intent.newPin, env.payouts);
    } else if intent.ChangePin? {
      ChangePinStill(s, q, intent.oldPin, intent.newPin);
    } else if intent.RecoverPin? {
      RecoveryStill(c, s, now, q, env.code);
    } else if intent.RecoverConfirm? {
      RecoveryConfirmStill(c, s, now, q, intent.code, intent.newPin);
    } else if intent.ReportSim? || intent.CallbackVerify? {
      SecurityStill(c, s, now, q);
    } else {
      JoinStill(s, q, intent.withName);
    }
  }

  lemma LockCheckStill(s: State, q: Phone, now: nat)
    ensures SameSlow(s, AfterLockCheck(s, q, now)) && SameSlow(s, s.ReleaseMatured(q, now)) && SameSlow(s, s)
  {
    hide ReleaseRows;
  }

  lemma SendGateStill(c: Config, s: State, now: nat, q: Phone, amount: nat, payee: string, phone: Option<Phone>)
    requires |c.tiers| == 3
    ensures SameSlow(s, SendGate(c, s, now, q, amount, payee, phone).1)
  {
    hide RulesAccept, LockBlocks, CoolsDown, SentToday, LimitsFor, Active, AfterLockCheck, SameSlow;
    LockCheckStill(s, q, now);
  }

  lemma SpendGateStill(c: Config, s: State, now: nat, q: Phone, amount: nat)
    requires |c.tiers| == 3
    ensures SameSlow(s, SpendGate(c, s, now, q, amount).1)
  {
    hide LockBlocks, CoolsDown, SpentToday, LimitsFor, AfterLockCheck, SameSlow;
    LockCheckStill(s, q, now);
  }

  lemma SendRequestStill(c: Config, s: State, now: nat, q: Phone, amount: nat, to: string, memo: string)
    requires |c.tiers| == 3
    ensures Still(s, RequestSendFx(c, s, now, q, amount, to, memo).0)
  {
    hide Resolve, SendGate, Still;
    var found := Resolve(c, s, q, to);
    if found.Some? {
      SendGateStill(c, s, now, q, amount, found.value.title, found.value.phone);
    }
    SameUsersStill(s, RequestSendFx(c, s, now, q, amount, to, memo).0);
  }

  lemma SwapRequestStill(c: Config, s: State, now: nat, q: Phone, amount: nat, tokenIn: Token, tokenOut: Token)
    requires |c.tiers| == 3
    ensures Still(s, RequestSwapFx(c, s, now, q, amount, tokenIn, tokenOut).0)
  {
    hide SpendGate, Still;
    SpendGateStill(c, s, now, q, amount);
    SameUsersStill(s, RequestSwapFx(c, s, now, q, amount, tokenIn, tokenOut).0);
  }

  lemma TopupRequestStill(c: Config, s: State, now: nat, q: Phone, face: nat, euro: bool, to: Option<string>)
    requires |c.tiers| == 3
    ensures Still(s, RequestTopupFx(c, s, now, q, face, euro, to).0)
  {
    hide SpendGate, Still, NormalizePhone, AirtimeCharge;
    SpendGateStill(c, s, now, q, AirtimeCharge(c, face, euro));
    SameUsersStill(s, RequestTopupFx(c, s, now, q, face, euro, to).0);
  }

  lemma LockRequestStill(s: State, now: nat, q: Phone, amount: nat, until: Option<nat>)
    ensures Still(s, RequestLockFx(s, now, q, amount, until).0)
  {
    hide Still, State.Available, State.ReleaseMatured;
    var u, t := s.ReleaseMatured(q, now), RequestLockFx(s, now, q, amount, until).0;
    LockCheckStill(s, q, now);
    assert t == s || SameSlow(u, t);
    SameUsersStill(s, t);
  }

  lemma MoneyRequestStill(c: Config, s: State, now: nat, q: Phone, intent: Intent)
    requires |c.tiers| == 3 && q in s.users && AsksForMoney(intent)
    ensures Still(s, ServeMoneyFx(c, s, now, q, intent).0)
  {
    hide RequestSendFx, RequestSwapFx, RequestTopupFx, RequestLockFx, Still;
    if intent.SendTo? {
      SendRequestStill(c, s, now, q, intent.amount, intent.to, intent.memo);
    } else if intent.SwapFor? {
      SwapRequestStill(c, s, now, q, intent.amount, intent.tokenIn, intent.tokenOut);
    } else if intent.Topup? {
      TopupRequestStill(c, s, now, q, intent.face, intent.euro, intent.forPhone);
    } else {
      LockRequestStill(s, now, q, intent.amount, intent.until);
    }
  }

  lemma ProfileStill(c: Config, s: State, now: nat, q: Phone, intent: Intent, got: nat)
    requires |c.tiers| == 3 && q in s.users && !intent.ClaimName?
    ensures Still(s, ServeProfileFx(c, s, now, q, intent, got).0)
  {
    hide Still, SaveContactFx, PriceFx, ReleaseRows;
    var t := ServeProfileFx(c, s, now, q, intent, got).0;
    if intent.VerifyId? && intent.wellFormed {
      OneUserStill(s, t, q, s.users[q].(tier := Max(s.users[q].tier, 1)));
    } else if intent.AttestSim? && intent.accepted {
      OneUserStill(s, t, q, s.users[q].(tier := 2));
    } else {
      SaveContactStill(c, s, q, if intent.Save? then intent.contact else "", if intent.Save? then intent.target else "");
      PriceStill(c, s, now, q, got);
      SameUsersStill(s, t);
    }
  }

  lemma SaveContactStill(c: Config, s: State, q: Phone, contact: string, target: string)
    ensures SameSlow(s, SaveContactFx(c, s, q, contact, target).0)
  {
    hide Lower, NormalizePhone;
  }

  lemma PriceStill(c: Config, s: State, now: nat, q: Phone, got: nat)
    requires |c.tiers| == 3
    ensures SameSlow(s, PriceFx(c, s, now, q, got).0)
  {
    hide PriceGate;
  }

  // ----- every step -----

  /** The row is the same, or the order was cancelled. */
  predicate OrderKept(a: StandingOrder, b: StandingOrder) {
    b == a || b == a.(active := false)
  }

  /** No order is lost, rescheduled or changed but by cancelling it; new ones come at the end. */
  ghost predicate OrdersKept(s: State, t: State) {
    |s.orders| <= |t.orders| && forall k | 0 <= k < |s.orders| :: OrderKept(s.orders[k], t.orders[k])
  }

  /** What one message does: nothing to the slow tables, an order more or one cancelled, or a name claimed. */
  ghost predicate Registers(s: State, t: State, q: Phone, intent: Intent) {
    || (Rosters(s, t) && OrdersKept(s, t))
    || (intent.ClaimName? && t == Names.Claim(s, q, intent.raw).Or(s))
  }

  lemma StillRegisters(s: State, t: State, q: Phone, intent: Intent)
    requires Still(s, t)
    ensures Registers(s, t, q, intent)
  {
  }

  lemma RequestOrderStill(c: Config, s: State, q: Phone, amount: nat, to: string, cadence: Cadence)
    ensures SameSlow(s, RequestOrderFx(c, s, q, amount, to, cadence).0)
  {
    hide Resolve;
  }

  lemma CancelledOrderIsKept(s: State, q: Phone, id: nat)
    ensures var t := CancelOrderFx(s, q, id); SameSlow(s, t.(orders := s.orders)) && OrdersKept(s, t)
  {
    var t := CancelOrderFx(s, q, id);
    if id < |s.orders| && s.orders[id].phone == q && s.orders[id].active {
      assert t == s.(orders := t.orders);
    } else {
      assert t == s;
    }
  }

  lemma OrdersRegister(c: Config, s: State, q: Phone, intent: Intent)
    ensures Registers(s, ServeOrdersFx(c, s, q, intent).0, q, intent)
  {
    hide RequestOrderFx, CancelOrderFx, RevokeRows, Rosters;
    var t := ServeOrdersFx(c, s, q, intent).0;
    SameUsersStill(s, s);
    if intent.Standing? {
      RequestOrderStill(c, s, q, intent.amount, intent.to, intent.cadence);
    } else if intent.CancelStanding? {
      CancelledOrderIsKept(s, q, intent.id);
    } else {
      assert SameSlow(s, t);
    }
    SameRosters(s, s, t);
  }

  lemma GateRegisters(c: Config, s: State, now: nat, q: Phone, intent: Intent, env: Env)
    requires |c.tiers| == 3
    ensures Registers(s, GateFx(c, s, now, q, intent, env).0, q, intent)
  {
    hide Still, Registers, ServeMoneyFx, ServeOrdersFx;
    var w, t := s.WithUser(q), GateFx(c, s, now, q, intent, env).0;
    if !Onboarded(w.users[q]) {
      KnowingStill(s, q);
      GreetStill(w, q);
      StillChain(s, w, t);
      StillRegisters(s, t, q, intent);
    } else {
      assert w == s;
      if AsksForMoney(intent) {
        MoneyRequestStill(c, s, now, q, intent);
        StillRegisters(s, t, q, intent);
      } else if IsOrdersIntent(intent) {
        OrdersRegister(c, s, q, intent);
      } else if !intent.ClaimName? {
        ProfileStill(c, s, now, q, intent, env.got);
        StillRegisters(s, t, q, intent);
      } else {
        ClaimRegisters(s, q, intent);
      }
    }
  }

  lemma ClaimRegisters(s: State, q: Phone, intent: Intent)
    requires intent.ClaimName?
    ensures Registers(s, Names.Claim(s, q, intent.raw).Or(s), q, intent)
  {
  }

  lemma ConfirmRegisters(c: Config, s0: State, now: nat, q: Phone, pin: Option<string>, policyWord: bool, intent: Intent, env: Env)
    ensures Registers(s0, ConfirmFx(c, s0, now, q, pin, policyWord, env).0, q, intent)
  {
    hide Rosters, ConfirmRulesFx, ConfirmOrderFx, ConfirmLockFx, ConfirmPaymentFx, State.WithUser;
    var s, t := s0.WithUser(q), ConfirmFx(c, s0, now, q, pin, policyWord, env).0;
    var payPin := if policyWord then None else pin;
    KnowingStill(s0, q);
    RegisteredIsKnown(s0, q);
    if q !in s.sessions || s.sessions[q].AwaitingName? || s.sessions[q].PShop? {
    } else if s.sessions[q].PPolicy? {
      ConfirmRulesStill(c, s, now, q, s.sessions[q].rules, pin);
    } else if s.sessions[q].PStanding? {
      ConfirmOrderAppends(c, s, now, q, s.sessions[q], payPin);
    } else if s.sessions[q].PLock? {
      ConfirmLockStill(c, s, now, q, s.sessions[q], payPin);
    } else {
      ConfirmPaymentStill(c, s, now, q, s.sessions[q], payPin, env);
    }
    RostersChain(s0, s, t);
  }

  lemma RostersChain(s: State, t: State, u: State)
    requires Rosters(s, t) && (Rosters(t, u) || u == t)
    ensures Rosters(s, u)
  {
  }

  lemma NameAnswerStill(s: State, q: Phone, m: Message)
    ensures Still(s, NameAnswerFx(s, q, m).0)
  {
    hide Still, FinishNamingFx;
    SameUsersStill(s, s);
    if m.intent.SetName? {
      NamingStill(s, q, m.intent.name);
    } else if m.bareName.Some? {
      NamingStill(s, q, m.bareName.value);
    }
  }

  lemma DispatchRegisters(c: Config, s: State, now: nat, q: Phone, m: Message)
    requires |c.tiers| == 3
    ensures Registers(s, DispatchFx(c, s, now, q, m).0, q, m.intent)
  {
    hide Still, Registers, NameAnswerFx, AccountFx, ConfirmFx, GateFx;
    var t := DispatchFx(c, s, now, q, m).0;
    if q in s.sessions && s.sessions[q] == AwaitingName {
      NameAnswerStill(s, q, m);
      StillRegisters(s, t, q, m.intent);
    } else if IsAccountIntent(m.intent) {
      AccountStill(c, s, now, q, m.intent, m.env);
      StillRegisters(s, t, q, m.intent);
    } else if m.intent.Rate? || m.intent.Cancel? {
      SameUsersStill(s, t);
      StillRegisters(s, t, q, m.intent);
    } else if m.intent.ConfirmWith? {
      ConfirmRegisters(c, s, now, q, m.intent.pin, false, m.intent, m.env);
    } else if m.intent.ConfirmPolicy? {
      ConfirmRegisters(c, s, now, q, m.intent.pin, true, m.intent, m.env);
    } else {
      GateRegisters(c, s, now, q, m.intent, m.env);
    }
  }

  lemma HandlingRegisters(c: Config, s: State, now: nat, raw: string, m: Message)
    requires |c.tiers| == 3
    ensures var q := NormalizePhone(raw);
            Registers(s, HandleFx(c, s, now, raw, m).0, q, ExpandDigits(s, q, m.intent))
  {
    hide Still, Registers, DispatchFx, NormalizePhone;
    var q := NormalizePhone(raw);
    if IsTelegram(q) {
      SameUsersStill(s, s);
      StillRegisters(s, s, q, ExpandDigits(s, q, m.intent));
    } else {
      DispatchRegisters(c, s, now, q, m.(intent := ExpandDigits(s, q, m.intent)));
    }
  }

  /** No message, job or shared contact ever loses, reschedules or changes a standing order, apart from
      cancelling it. */
  lemma StepsKeepOrders(c: Config, s: State, i: Input)
    requires |c.tiers| == 3
    ensures OrdersKept(s, Step(c, s, i))
  {
    hide HandleFx, JoinFx, NormalizePhone, Claims.Expire, Channels.Share, Registers, Rosters;
    match i
    case Said(at, raw, m) =>
      HandlingRegisters(c, s, at, raw, m);
      RegisteringKeepsOrders(s, HandleFx(c, s, at, raw, m).0, NormalizePhone(raw), ExpandDigits(s, NormalizePhone(raw), m.intent));
    case Called(_, raw) => JoinStill(s, NormalizePhone(raw), None);
    case ExpiryJob(at, outcomes) => ExpireStill(c, s, at, outcomes);
    case Shared(_, chatId, contact) => Channels.SharingShares(s, chatId, contact);
    case _ =>
  }

  lemma RegisteringKeepsOrders(s: State, t: State, q: Phone, intent: Intent)
    requires Registers(s, t, q, intent)
    ensures OrdersKept(s, t)
  {
    hide NormalizeLabel, ValidName, Rosters;
  }
}
