/** How many wrong PINs a caller can try.  The confirm branches for rules and payments refuse while
    the account is locked; the ones for standing orders and savings locks do not, but they count. */
module PinGuard {
  import opened Text
  import opened Tables
  import opened Settings
  import opened Policy
  import opened Payees
  import opened Pipeline
  import opened Runs
  import opened Effects
  import opened Steps
  import opened Safety
  import opened Registers
  import Channels
  import Claims
  import Names

  datatype PinView = PinView(fails: nat, until: Option<nat>)

  /** The failure count and lock of p. */
  function View(s: State, p: Phone): PinView {
    if p in s.users then PinView(s.users[p].fails, s.users[p].lockedUntil) else PinView(0, None)
  }

  function Failed(c: Config, v: PinView, now: nat): PinView {
    PinView(v.fails + 1, if v.fails + 1 >= c.maxFails then Some(now + c.lockMs) else None)
  }

  /** Dispatch tests a PIN that is wrong, in a branch that asks whether the account is locked. */
  ghost predicate Guess(s: State, now: nat, q: Phone, intent: Intent) {
    && q in s.users && q in s.sessions && Onboarded(s.users[q]) && !PinLocked(s.users[q], now)
    && (intent.ConfirmWith? || (intent.ConfirmPolicy? && s.sessions[q].PPolicy?))
    && (s.sessions[q].PPolicy? || Money(s.sessions[q]))
    && intent.pin.Some? && !PinMatches(s.users[q], intent.pin.value)
  }

  /** A wrong PIN for a standing order or a savings lock: counted, but tested also while locked. */
  ghost predicate OpenGuess(s: State, q: Phone, intent: Intent) {
    && q in s.sessions && (s.sessions[q].PStanding? || s.sessions[q].PLock?)
    && intent.ConfirmWith? && intent.pin.Some? && !(q in s.users && PinMatches(s.users[q], intent.pin.value))
  }

  /** The right PIN, in a branch that tests it. */
  ghost predicate RightPin(s: State, now: nat, q: Phone, intent: Intent) {
    && q in s.users && q in s.sessions && (intent.ConfirmWith? || (intent.ConfirmPolicy? && s.sessions[q].PPolicy?))
    && intent.pin.Some? && PinMatches(s.users[q], intent.pin.value)
    && (|| s.sessions[q].PStanding? || s.sessions[q].PLock?
        || ((s.sessions[q].PPolicy? || Money(s.sessions[q])) && Onboarded(s.users[q]) && !PinLocked(s.users[q], now)))
  }

  /** A new PIN is stored: the first one of a named caller, a change that gives the old one, or a
      recovery whose code is right and has not run out. */
  ghost predicate NewPin(s: State, now: nat, q: Phone, intent: Intent) {
    && q in s.users && !(q in s.sessions && s.sessions[q].AwaitingName?)
    && var u := s.users[q];
       || (intent.SetPinTo? && u.name.Some? && u.pin.None?)
       || (intent.ChangePin? && PinMatches(u, intent.oldPin))
       || (intent.RecoverConfirm? && u.recovery.Some? && now <= u.recovery.value.expires && u.recovery.value.code == intent.code)
  }

  /** The message gives the right PIN where it is asked for, or succeeds in setting a new one. */
  ghost predicate Resets(s: State, now: nat, q: Phone, intent: Intent) {
    RightPin(s, now, q, intent) || NewPin(s, now, q, intent)
  }

  /** Exactly what one message does to the caller's count: a reset, one more failure, or nothing. */
  ghost predicate Counted(c: Config, s: State, t: State, now: nat, q: Phone, intent: Intent) {
    View(t, q) == if Resets(s, now, q, intent) then PinView(0, None)
                  else if Guess(s, now, q, intent) || OpenGuess(s, q, intent) then Failed(c, View(s, q), now)
                  else View(s, q)
  }

  /** Only the house accounts' rows may differ. */
  ghost predicate SameUsers(c: Config, s: State, t: State) {
    forall p | c.Ordinary(p) :: (p in t.users <==> p in s.users) && (p in s.users ==> t.users[p] == s.users[p])
  }

  // ----- moving money leaves the counters alone -----

  lemma {:induction false} JobKeepsUsers(c: Config, s: State, now: nat, ids: seq<nat>, job: Claims.Job, outcomes: seq<Outcome>, n: nat)
    requires n <= |ids| && forall k | k in ids :: k < |s.claims|
    ensures Claims.PayMany(c, s, now, ids, job, outcomes, n).0.users == s.users
  {
    hide Claims.PayOne;
    if n > 0 {
      JobKeepsUsers(c, s, now, ids, job, outcomes, n - 1);
      Claims.PayManyStep(c, s, now, ids, job, outcomes, n);
      PayOneKeepsUsers(c, Claims.PayMany(c, s, now, ids, job, outcomes, n - 1).0, now, ids[n - 1], job, Claims.OutcomeAt(outcomes, n - 1));
    }
  }

  lemma PayOneKeepsUsers(c: Config, s: State, now: nat, id: nat, job: Claims.Job, o: Outcome)
    requires id < |s.claims|
    ensures Claims.PayOne(c, s, now, id, job, o).0.users == s.users
  {
    hide Claims.PayOut;
    var k := s.claims[id];
    if job.Release? {
      PayOutStill(c, s, now, id, job.payee, k.from, Claimed, EscrowClaim, o);
    } else if k.from in s.users {
      PayOutStill(c, s, now, id, k.from, k.to, Refunded, EscrowRefund, o);
    }
  }

  lemma EscrowKeepsUsers(c: Config, s: State)
    ensures SameUsers(c, s, Claims.WithEscrow(c, s))
    ensures Claims.WithEscrow(c, s).claims == s.claims
  {
    hide Claims.WithEscrow;
    Claims.EscrowUserOnly(c, s);
  }

  lemma FulfilKeepsUsers(c: Config, s: State, now: nat, q: Phone, outcomes: seq<Outcome>)
    ensures SameUsers(c, s, Claims.Fulfil(c, s, now, q, outcomes).0)
  {
    hide Claims.PayMany, Claims.WithEscrow;
    var ids := Claims.HeldClaimsOf(s.claims, q);
    if ids != [] && q in s.users {
      EscrowKeepsUsers(c, s);
      JobKeepsUsers(c, Claims.WithEscrow(c, s), now, ids, Claims.Release(q), outcomes, |ids|);
    }
  }

  lemma ExpireKeepsUsers(c: Config, s: State, now: nat, outcomes: seq<Outcome>)
    ensures SameUsers(c, s, Claims.Expire(c, s, now, outcomes).0)
  {
    hide Claims.PayMany, Claims.WithEscrow;
    var ids := Claims.HeldPast(s.claims, now);
    EscrowKeepsUsers(c, s);
    JobKeepsUsers(c, Claims.WithEscrow(c, s), now, ids, Claims.Refund, outcomes, |ids|);
  }

  lemma SwapMoveKeepsUsers(s: State, q: Phone, m: Pending, o: Outcome, got: nat)
    requires m.PSwap?
    ensures SwapMove(s, q, m, o, got).0.users == s.users
  {
    hide SwapMove;
    SwapMoveStill(s, q, m, o, got);
  }

  lemma SwapKeepsUsers(s: State, now: nat, q: Phone, m: Pending, o: Outcome, got: nat)
    requires m.PSwap?
    ensures SwapFx(s, now, q, m, o, got).0.users == s.users
  {
    hide SwapMove;
    SwapMoveKeepsUsers(s.(idem := s.idem[m.key := InFlight]), q, m, o, got);
  }

  lemma PaymentKeepsUsers(c: Config, s: State, now: nat, q: Phone, m: Pending, env: Env)
    requires Money(m)
    ensures SameUsers(c, s, PayFx(c, s, now, q, m, env).0)
  {
    hide SendFx, TopupFx, SwapFx;
    if m.PSend? {
      SendKeepsUsers(c, s, now, q, m, env.outcome);
    } else if m.PSwap? {
      SwapKeepsUsers(s, now, q, m, env.outcome, env.got);
    } else {
      TopupKeepsUsers(c, s, now, q, m, env);
    }
  }

  lemma HoldKeepsUsers(c: Config, s: State, now: nat, q: Phone, to: Phone, amount: nat, o: Outcome)
    ensures SameUsers(c, s, Claims.Hold(c, s, now, q, to, amount, o).0)
  {
    hide State.Transfer, Claims.WithEscrow, Claims.CanOpen;
    var e := Claims.WithEscrow(c, s);
    EscrowKeepsUsers(c, s);
    if Claims.CanOpen(c, s, now, q) {
      TransferShape(e, q, WalletOf(c.escrow), amount, o);
      assert Claims.Hold(c, s, now, q, to, amount, o).0.users == e.users;
    }
  }

  lemma PlainSendKeepsUsers(c: Config, s: State, now: nat, q: Phone, m: Pending, o: Outcome)
    requires m.PSend? && m.key !in s.idem && !(m.pendingClaim && m.toPhone.Some?)
    ensures SendFx(c, s, now, q, m, o).0.users == s.users
  {
    hide State.Transfer;
    var s1 := s.(idem := s.idem[m.key := InFlight]);
    if m.toAddress.Some? {
      TransferShape(s1, q, m.toAddress.value, m.amount, o);
    }
  }

  lemma SendKeepsUsers(c: Config, s: State, now: nat, q: Phone, m: Pending, o: Outcome)
    requires m.PSend?
    ensures SameUsers(c, s, SendFx(c, s, now, q, m, o).0)
  {
    hide Claims.Hold, State.Transfer;
    var t := SendFx(c, s, now, q, m, o).0;
    if m.key in s.idem {
      assert t == s;
    } else if m.pendingClaim && m.toPhone.Some? {
      var s1 := s.(idem := s.idem[m.key := InFlight]);
      HoldKeepsUsers(c, s1, now, q, m.toPhone.value, m.amount, o);
      assert t.users == Claims.Hold(c, s1, now, q, m.toPhone.value, m.amount, o).0.users;
    } else {
      PlainSendKeepsUsers(c, s, now, q, m, o);
    }
  }

  lemma SinkKeepsUsers(c: Config, s: State)
    ensures SameUsers(c, s, s.WithUser(c.sink))
  {
  }

  lemma AirtimeKeepsUsers(c: Config, s: State, q: Phone, charge: nat, env: Env)
    ensures SameUsers(c, s, AirtimeMove(c, s, q, charge, env).0)
  {
    hide AirtimeMove, State.WithUser;
    AirtimeMoveStill(c, s, q, charge, env);
    SinkKeepsUsers(c, s);
  }

  lemma TopupKeepsUsers(c: Config, s: State, now: nat, q: Phone, m: Pending, env: Env)
    requires m.PTopup?
    ensures SameUsers(c, s, TopupFx(c, s, now, q, m, env).0)
  {
    hide AirtimeMove;
    if m.key !in s.idem {
      var s1 := s.(idem := s.idem[m.key := InFlight]);
      AirtimeKeepsUsers(c, s1, q, m.charge, env);
      assert TopupFx(c, s, now, q, m, env).0.users == AirtimeMove(c, s1, q, m.charge, env).0.users;
    }
  }

  // ----- each message -----

  /** The PIN step: a right PIN resets, a wrong one counts, and otherwise nothing happens. */
  lemma PinStepCounts(c: Config, s: State, now: nat, q: Phone, pin: Option<string>)
    requires q in s.users
    ensures var (t, stop) := PinStep(c, s, now, q, pin);
            var open := Onboarded(s.users[q]) && !PinLocked(s.users[q], now) && pin.Some?;
            && (stop.None? <==> open && PinMatches(s.users[q], pin.value))
            && View(t, q) == if stop.None? then PinView(0, None) else if open then Failed(c, View(s, q), now) else View(s, q)
  {
    if !Onboarded(s.users[q]) {
      assert PinStep(c, s, now, q, pin).0.users == s.users;
    }
  }

  lemma PaymentConfirmCounts(c: Config, s: State, now: nat, q: Phone, intent: Intent, pin: Option<string>, env: Env)
    requires c.Ordinary(q) && q in s.users && q in s.sessions && Money(s.sessions[q])
    requires if intent.ConfirmWith? then intent.pin == pin else intent.ConfirmPolicy? && pin.None?
    ensures Counted(c, s, ConfirmPaymentFx(c, s, now, q, s.sessions[q], pin, env).0, now, q, intent)
  {
    hide PayFx, State.FailPin, State.ClearFails;
    var (t, stop) := PinStep(c, s, now, q, pin);
    PinStepCounts(c, s, now, q, pin);
    if stop.None? {
      PaymentKeepsUsers(c, t, now, q, s.sessions[q], env);
      SameUsersSameView(c, t, PayFx(c, t, now, q, s.sessions[q], env).0, q);
    }
  }

  lemma RulesConfirmCounts(c: Config, s: State, now: nat, q: Phone, intent: Intent)
    requires q in s.users && q in s.sessions && s.sessions[q].PPolicy? && (intent.ConfirmWith? || intent.ConfirmPolicy?)
    ensures Counted(c, s, ConfirmRulesFx(c, s, now, q, s.sessions[q].rules, intent.pin).0, now, q, intent)
  {
  }

  lemma OrderConfirmCounts(c: Config, s: State, now: nat, q: Phone, intent: Intent, pin: Option<string>)
    requires q in s.users && q in s.sessions
    requires if intent.ConfirmWith? then intent.pin == pin else intent.ConfirmPolicy? && pin.None?
    ensures s.sessions[q].PStanding? ==> Counted(c, s, ConfirmOrderFx(c, s, now, q, s.sessions[q], pin).0, now, q, intent)
    ensures s.sessions[q].PLock? ==> Counted(c, s, ConfirmLockFx(c, s, now, q, s.sessions[q], pin).0, now, q, intent)
  {
  }

  lemma KnownConfirmCounts(c: Config, s: State, now: nat, q: Phone, intent: Intent, policyWord: bool, env: Env)
    requires c.Ordinary(q) && q in s.users && if policyWord then intent.ConfirmPolicy? else intent.ConfirmWith?
    ensures Counted(c, s, ConfirmFx(c, s, now, q, intent.pin, policyWord, env).0, now, q, intent)
  {
    assert s.WithUser(q) == s;
    var payPin := if policyWord then None else intent.pin;
    if q !in s.sessions || s.sessions[q].AwaitingName? || s.sessions[q].PShop? {
    } else if s.sessions[q].PPolicy? {
      RulesConfirmCounts(c, s, now, q, intent);
    } else if s.sessions[q].PStanding? || s.sessions[q].PLock? {
      OrderConfirmCounts(c, s, now, q, intent, payPin);
    } else {
      PaymentConfirmCounts(c, s, now, q, intent, payPin, env);
    }
  }

  /** Registering the caller changes neither its count nor what a confirmation means. */
  lemma SameCount(s: State, now: nat, q: Phone, intent: Intent)
    requires intent.ConfirmWith? || intent.ConfirmPolicy?
    ensures var t := s.WithUser(q);
            && View(t, q) == View(s, q) && OpenGuess(t, q, intent) == OpenGuess(s, q, intent)
            && Guess(t, now, q, intent) == Guess(s, now, q, intent) && Resets(t, now, q, intent) == Resets(s, now, q, intent)
  {
  }

  lemma ConfirmCounts(c: Config, s0: State, now: nat, q: Phone, intent: Intent, policyWord: bool, env: Env)
    requires c.Ordinary(q) && if policyWord then intent.ConfirmPolicy? else intent.ConfirmWith?
    ensures Counted(c, s0, ConfirmFx(c, s0, now, q, intent.pin, policyWord, env).0, now, q, intent)
  {
    var s := s0.WithUser(q);
    KnownConfirmCounts(c, s, now, q, intent, policyWord, env);
    SameCount(s0, now, q, intent);
    assert ConfirmFx(c, s0, now, q, intent.pin, policyWord, env) == ConfirmFx(c, s, now, q, intent.pin, policyWord, env);
  }

  lemma ProfileCounts(c: Config, s: State, now: nat, q: Phone, intent: Intent, got: nat)
    requires |c.tiers| == 3 && q in s.users
    ensures View(ServeProfileFx(c, s, now, q, intent, got).0, q) == View(s, q)
  {
  }

  lemma SameRowSameView(s: State, t: State, p: Phone)
    requires t.users == s.users
    ensures View(t, p) == View(s, p)
  {
  }

  lemma MoneyRequestCounts(c: Config, s: State, now: nat, q: Phone, intent: Intent)
    requires |c.tiers| == 3 && q in s.users && Onboarded(s.users[q]) && AsksForMoney(intent)
    ensures View(ServeMoneyFx(c, s, now, q, intent).0, q) == View(s, q)
  {
    hide Resolve, NormalizePhone, AirtimeCharge, SendGate, SpendGate, State.ReleaseMatured, State.Available, View;
    var t := ServeMoneyFx(c, s, now, q, intent).0;
    if intent.SendTo? {
      var found := Resolve(c, s, q, intent.to);
      if found.Some? {
        SendGateStill(c, s, now, q, intent.amount, found.value.title, found.value.phone);
      }
    } else if intent.SwapFor? {
      SpendGateStill(c, s, now, q, intent.amount);
    } else if intent.Topup? {
      SpendGateStill(c, s, now, q, AirtimeCharge(c, intent.face, intent.euro));
    } else {
      LockCheckStill(s, q, now);
    }
    SameRowSameView(s, t, q);
  }

  lemma OrdersCount(c: Config, s: State, q: Phone, intent: Intent)
    ensures ServeOrdersFx(c, s, q, intent).0.users == s.users
  {
  }

  lemma ServedCounts(c: Config, s: State, now: nat, q: Phone, intent: Intent, env: Env)
    requires |c.tiers| == 3 && q in s.users && Onboarded(s.users[q])
    ensures View(ServeFx(c, s, now, q, intent, env).0, q) == View(s, q)
  {
    if AsksForMoney(intent) {
      MoneyRequestCounts(c, s, now, q, intent);
    } else if IsOrdersIntent(intent) {
      OrdersCount(c, s, q, intent);
    } else {
      ProfileCounts(c, s, now, q, intent, env.got);
    }
  }

  lemma GateCounts(c: Config, s: State, now: nat, q: Phone, intent: Intent, env: Env)
    requires |c.tiers| == 3
    ensures View(GateFx(c, s, now, q, intent, env).0, q) == View(s, q)
  {
    hide ServeFx, View, State.WithUser;
    var t := s.WithUser(q);
    RegisteringDoesNotCount(s, q, q);
    if Onboarded(t.users[q]) {
      ServedCounts(c, t, now, q, intent, env);
    } else {
      SameRowSameView(t, GreetFx(t, q).0, q);
    }
  }

  lemma CompletionCounts(c: Config, w: State, now: nat, q: Phone, pin: string, payouts: seq<Outcome>)
    requires c.Ordinary(q) && q in w.users
    ensures View(CompletePinFx(c, w, now, q, pin, payouts).0, q) == PinView(0, None)
  {
    hide Claims.Fulfil;
    var u := w.PutPin(q, pin).PutPending(q, None);
    assert w.WithUser(q) == w;
    FulfilKeepsUsers(c, u, now, q, payouts);
  }

  lemma SetPinCounts(c: Config, s: State, now: nat, q: Phone, pin: string, payouts: seq<Outcome>)
    requires c.Ordinary(q)
    ensures View(SetPinFx(c, s, now, q, pin, payouts).0, q)
         == if q in s.users && s.users[q].name.Some? && s.users[q].pin.None? then PinView(0, None) else View(s, q)
  {
    hide CompletePinFx, View;
    var t := s.WithUser(q);
    RegisteringDoesNotCount(s, q, q);
    if t.users[q].name.Some? && !Onboarded(t.users[q]) {
      CompletionCounts(c, t, now, q, pin, payouts);
    } else {
      SameRowSameView(t, SetPinFx(c, s, now, q, pin, payouts).0, q);
    }
  }

  lemma NamingCounts(s: State, q: Phone, name: Option<string>)
    ensures View(JoinFx(s, q, name).0, q) == View(s, q)
    ensures name.Some? ==> View(FinishNamingFx(s, q, name.value).0, q) == View(s, q)
  {
    hide State.WithUser;
    RegisteringDoesNotCount(s, q, q);
    var w := s.WithUser(q);
    assert GreetFx(w, q).0.users == w.users;
    if name.Some? {
      var t := FinishNamingFx(s, q, name.value).0;
      assert t.users == w.users[q := t.users[q]];
    }
  }

  lemma RecoveryCounts(c: Config, s: State, now: nat, q: Phone, code: string, pin: string)
    ensures View(RecoverConfirmFx(c, s, now, q, code, pin).0, q)
         == if q in s.users && s.users[q].recovery.Some? && now <= s.users[q].recovery.value.expires && s.users[q].recovery.value.code == code
            then PinView(0, None) else View(s, q)
  {
    assert View(s.WithUser(q), q) == View(s, q);
  }

  lemma SecurityCounts(c: Config, s: State, now: nat, q: Phone, code: string)
    ensures View(RecoverFx(c, s, now, q, code).0, q) == View(s, q)
    ensures View(RiskFx(c, s, now, q).0, q) == View(s, q)
    ensures View(CallbackFx(c, s, now, q).0, q) == View(s, q)
  {
    assert View(s.WithUser(q), q) == View(s, q);
  }

  lemma ChangeCounts(s: State, q: Phone, oldPin: string, newPin: string)
    ensures View(ChangePinFx(s, q, oldPin, newPin).0, q)
         == if q in s.users && PinMatches(s.users[q], oldPin) then PinView(0, None) else View(s, q)
  {
    assert View(s.WithUser(q), q) == View(s, q);
  }

  lemma AccountCounts(c: Config, s: State, now: nat, q: Phone, intent: Intent, env: Env)
    requires c.Ordinary(q) && IsAccountIntent(intent) && !(q in s.sessions && s.sessions[q].AwaitingName?)
    ensures Counted(c, s, AccountFx(c, s, now, q, intent, env).0, now, q, intent)
  {
    hide FinishNamingFx, JoinFx, SetPinFx, ChangePinFx, RecoverFx, RecoverConfirmFx, RiskFx, CallbackFx, View;
    if intent.SetName? {
      NamingCounts(s, q, Some(intent.name));
    } else if intent.Hello? {
      NamingCounts(s, q, None);
    } else if intent.SetPinTo? {
      SetPinCounts(c, s, now, q, intent.newPin, env.payouts);
    } else if intent.ChangePin? {
      ChangeCounts(s, q, intent.oldPin, intent.newPin);
    } else if intent.RecoverConfirm? {
      RecoveryCounts(c, s, now, q, intent.code, intent.newPin);
    } else if intent.Join? {
      NamingCounts(s, q, intent.withName);
    } else {
      SecurityCounts(c, s, now, q, env.code);
    }
  }

  lemma NameAnswerCounts(s: State, q: Phone, m: Message)
    ensures View(NameAnswerFx(s, q, m).0, q) == View(s, q)
  {
    hide FinishNamingFx, View;
    if m.intent.SetName? {
      NamingCounts(s, q, Some(m.intent.name));
    } else if m.bareName.Some? {
      NamingCounts(s, q, m.bareName);
    }
  }

  lemma DispatchCounts(c: Config, s: State, now: nat, q: Phone, m: Message)
    requires |c.tiers| == 3 && c.Ordinary(q)
    ensures Counted(c, s, DispatchFx(c, s, now, q, m).0, now, q, m.intent)
  {
    hide AccountFx, ConfirmFx, GateFx, NameAnswerFx, View;
    if q in s.sessions && s.sessions[q] == AwaitingName {
      NameAnswerCounts(s, q, m);
    } else if IsAccountIntent(m.intent) {
      AccountCounts(c, s, now, q, m.intent, m.env);
    } else if m.intent.Rate? || m.intent.Cancel? {
      SameRowSameView(s, DispatchFx(c, s, now, q, m).0, q);
    } else if m.intent.ConfirmWith? {
      ConfirmCounts(c, s, now, q, m.intent, false, m.env);
    } else if m.intent.ConfirmPolicy? {
      ConfirmCounts(c, s, now, q, m.intent, true, m.env);
    } else {
      GateCounts(c, s, now, q, m.intent, m.env);
    }
  }

  // ----- each step -----

  ghost predicate GuessAt(s: State, i: Input, p: Phone) {
    By(s, i, p) && !IsTelegram(p) && Guess(s, i.at, p, IntentOf(s, i))
  }

  ghost predicate ResetAt(s: State, i: Input, p: Phone) {
    By(s, i, p) && !IsTelegram(p) && Resets(s, i.at, p, IntentOf(s, i))
  }

  lemma LightDoesNotCount(s: State, t: State, q: Phone, p: Phone)
    requires Light(s, t, q) && p != q
    ensures View(t, p) == View(s, p)
  {
  }

  lemma OthersPaymentsDoNotCount(c: Config, s: State, t: State, now: nat, q: Phone, pin: Option<string>, env: Env, p: Phone)
    requires c.Ordinary(p) && p != q && Pays(c, s, t, now, q, pin, env)
    ensures View(t, p) == View(s, p)
  {
    PaymentKeepsUsers(c, s.ClearFails(q), now, q, s.sessions[q], env);
    assert View(s.ClearFails(q), p) == View(s, p);
  }

  lemma SetUpTouchesOne(s: State, q: Phone, pin: string, p: Phone)
    requires p != q
    ensures View(s.WithUser(q).WithUser(q).PutPin(q, pin).PutPending(q, None), p) == View(s, p)
  {
  }

  lemma OthersSetupsDoNotCount(c: Config, s: State, t: State, now: nat, q: Phone, intent: Intent, env: Env, p: Phone)
    requires c.Ordinary(p) && p != q && Completes(c, s, t, now, q, intent, env)
    ensures View(t, p) == View(s, p)
  {
    hide Claims.Fulfil, View;
    var u := s.WithUser(q).WithUser(q).PutPin(q, intent.newPin).PutPending(q, None);
    SetUpTouchesOne(s, q, intent.newPin, p);
    FulfilKeepsUsers(c, u, now, q, env.payouts);
    SameUsersSameView(c, u, t, p);
  }

  lemma OtherMessagesDoNotCount(c: Config, s: State, t: State, now: nat, q: Phone, m: Message, p: Phone)
    requires |c.tiers| == 3 && c.Ordinary(p) && p != q && MessageKind(c, s, t, now, q, m)
    ensures View(t, p) == View(s, p)
  {
    hide Light, Completes, Pays, MessageKind, View;
    MessageIsLight(c, s, t, now, q, m);
    if Light(s, t, q) {
      LightDoesNotCount(s, t, q, p);
    } else if Completes(c, s, t, now, q, m.intent, m.env) {
      OthersSetupsDoNotCount(c, s, t, now, q, m.intent, m.env, p);
    } else {
      OthersPaymentsDoNotCount(c, s, t, now, q, if m.intent.ConfirmWith? then m.intent.pin else None, m.env, p);
    }
  }

  lemma SameUsersSameView(c: Config, s: State, t: State, p: Phone)
    requires c.Ordinary(p) && SameUsers(c, s, t)
    ensures View(t, p) == View(s, p)
  {
  }

  lemma SharingDoesNotCount(s: State, t: State, phone: Phone, tg: Phone, p: Phone)
    requires Channels.Shares(s, t, phone, tg) && !IsTelegram(p)
    ensures View(t, p) == View(s, p)
  {
    assert Channels.Untouched(s, t, p) || Channels.Dropped(s, t, p) || Channels.Untouched(s.WithUser(p), t, p);
    assert View(s.WithUser(p), p) == View(s, p);
  }

  /** Messages of others, calls, shared contacts and background jobs never touch p's count. */
  lemma OthersDoNotCount(c: Config, s: State, i: Input, p: Phone)
    requires |c.tiers| == 3 && c.Ordinary(p) && !IsTelegram(p) && FromPeople(c, i) && Rooted(c, s) && !By(s, i, p)
    ensures View(Step(c, s, i), p) == View(s, p)
  {
    hide HandleFx, JoinFx, Claims.Expire, NormalizePhone, Channels.Share, Names.Release, MessageKind, View, IsTelegram;
    var t := Step(c, s, i);
    match i
    case Said(at, raw, m) =>
      StepIsKnown(c, s, i);
      OtherMessagesDoNotCount(c, s, t, at, NormalizePhone(raw), Expanded(s, i), p);
    case Called(at, raw) => CallsDoNotCount(s, NormalizePhone(raw), p);
    case ExpiryJob(at, outcomes) =>
      ExpireKeepsUsers(c, s, at, outcomes);
      SameUsersSameView(c, s, t, p);
    case Shared(_, chatId, contact) =>
      Channels.SharingShares(s, chatId, contact);
      SharingDoesNotCount(s, t, NormalizePhone(contact), Channels.ChatAccount(chatId), p);
    case NameDropped(_, raw) => ReleasingDoesNotCount(s, NormalizePhone(raw), p);
    case _ =>
      assert t.users == s.users;
      SameUsersSameView(c, s, t, p);
  }

  lemma RegisteringDoesNotCount(s: State, q: Phone, p: Phone)
    ensures q in s.WithUser(q).users && View(s.WithUser(q), p) == View(s, p)
  {
  }

  lemma ReleasingDoesNotCount(s: State, q: Phone, p: Phone)
    ensures View(Names.Release(s, q), p) == View(s, p)
  {
  }

  lemma CallsDoNotCount(s: State, q: Phone, p: Phone)
    ensures View(JoinFx(s, q, None).0, p) == View(s, p)
  {
    hide State.WithUser;
    var u := s.WithUser(q);
    RegisteringDoesNotCount(s, q, p);
    assert GreetFx(u, q).0.users == u.users;
    assert JoinFx(s, q, None) == GreetFx(u, q);
  }

  lemma StepCounts(c: Config, s: State, i: Input, p: Phone)
    requires |c.tiers| == 3 && c.Ordinary(p) && !IsTelegram(p) && FromPeople(c, i) && Rooted(c, s) && !ResetAt(s, i, p)
    ensures || (View(Step(c, s, i), p) == View(s, p) && !GuessAt(s, i, p))
            || View(Step(c, s, i), p) == Failed(c, View(s, p), i.at)
  {
    if By(s, i, p) {
      DispatchCounts(c, s, i.at, p, Expanded(s, i));
    } else {
      OthersDoNotCount(c, s, i, p);
    }
  }

  /** While the account is locked, exactly a wrong PIN given to confirm a standing order or a savings lock
      adds to its count, and exactly that or a reset changes count or lock at all. */
  lemma LockedCountsChangeExactly(c: Config, run: seq<Input>, t: seq<State>, k: nat, p: Phone)
    requires Run(c, run, t) && k < |run| && c.Ordinary(p) && !IsTelegram(p)
    requires p in t[k].users && PinLocked(t[k].users[p], run[k].at)
    ensures View(t[k + 1], p).fails > View(t[k], p).fails <==> By(t[k], run[k], p) && OpenGuess(t[k], p, IntentOf(t[k], run[k]))
    ensures View(t[k + 1], p) != View(t[k], p)
       <==> By(t[k], run[k], p) && (OpenGuess(t[k], p, IntentOf(t[k], run[k])) || Resets(t[k], run[k].at, p, IntentOf(t[k], run[k])))
  {
    hide Step, FromPeople, Rooted, NormalizePhone;
    StepOfRun(c, run, t, k);
    if By(t[k], run[k], p) {
      BySpeaking(c, t[k], run[k], p);
      DispatchCounts(c, t[k], run[k].at, p, Expanded(t[k], run[k]));
    } else {
      OthersDoNotCount(c, t[k], run[k], p);
    }
  }

  lemma BySpeaking(c: Config, s: State, i: Input, p: Phone)
    requires |c.tiers| == 3 && By(s, i, p) && !IsTelegram(p)
    ensures Step(c, s, i) == DispatchFx(c, s, i.at, p, Expanded(s, i)).0
  {
  }

  // ----- the bound -----

  /** Wrong PINs of p tested by the guarded branches in steps a to b. */
  ghost function Guesses(run: seq<Input>, t: seq<State>, a: nat, b: nat, p: Phone): nat
    requires b <= |run| && |t| == |run| + 1
    decreases b
  {
    if b <= a then 0 else Guesses(run, t, a, b - 1, p) + if GuessAt(t[b - 1], run[b - 1], p) then 1 else 0
  }

  /** A lock never reaches further than the lock time from now. */
  ghost predicate LockIsRecent(c: Config, v: PinView, now: nat) {
    v.until.Some? ==> v.until.value <= now + c.lockMs
  }

  /** n lock times. */
  function Waits(n: int, lock: nat): nat
    decreases n
  {
    if n <= 0 then 0 else Waits(n - 1, lock) + lock
  }

  /** After g guesses since t0: they fit under the limit, or the lock has moved on with each of them. */
  ghost predicate WithinLimit(c: Config, v: PinView, t0: nat, g: nat) {
    || g == 0
    || (v.fails < c.maxFails && g <= v.fails)
    || (v.fails >= c.maxFails && v.until.Some? && v.until.value >= t0 + Waits(g - c.maxFails + 1, c.lockMs))
  }

  lemma FailureKeepsGuarded(c: Config, v: PinView, t0: nat, now: nat, g: nat, tested: bool)
    requires c.maxFails >= 1 && t0 <= now && WithinLimit(c, v, t0, g) && LockIsRecent(c, v, now)
    requires tested ==> !(v.until.Some? && v.until.value > now)
    ensures WithinLimit(c, Failed(c, v, now), t0, if tested then g + 1 else g)
    ensures LockIsRecent(c, Failed(c, v, now), now)
  {
  }

  lemma StepStaysGuarded(c: Config, s: State, i: Input, t0: nat, g: nat, p: Phone)
    requires c.Valid() && c.Ordinary(p) && !IsTelegram(p) && FromPeople(c, i) && Rooted(c, s) && !ResetAt(s, i, p) && t0 <= i.at
    requires WithinLimit(c, View(s, p), t0, g) && LockIsRecent(c, View(s, p), i.at)
    ensures WithinLimit(c, View(Step(c, s, i), p), t0, if GuessAt(s, i, p) then g + 1 else g)
    ensures LockIsRecent(c, View(Step(c, s, i), p), i.at)
  {
    var u := View(Step(c, s, i), p);
    StepCounts(c, s, i, p);
    if u == Failed(c, View(s, p), i.at) {
      FailureKeepsGuarded(c, View(s, p), t0, i.at, g, GuessAt(s, i, p));
    }
  }

  /** No message of steps a to b gives p's right PIN where it is asked for, or succeeds in setting a new
      one; failed attempts at either are allowed. */
  ghost predicate NoReset(run: seq<Input>, t: seq<State>, a: nat, b: nat, p: Phone)
    requires b <= |run| && |t| == |run| + 1
  {
    forall k | a <= k < b :: !ResetAt(t[k], run[k], p)
  }

  /** The count at time now, after g guesses since t0. */
  ghost predicate Safe(c: Config, s: State, p: Phone, t0: nat, g: nat, now: nat) {
    t0 <= now && WithinLimit(c, View(s, p), t0, g) && LockIsRecent(c, View(s, p), now)
  }

  lemma SafeNext(c: Config, s: State, t: State, i: Input, t0: nat, g: nat, h: nat, p: Phone)
    requires c.Valid() && c.Ordinary(p) && !IsTelegram(p) && FromPeople(c, i) && Rooted(c, s) && !ResetAt(s, i, p)
    requires Safe(c, s, p, t0, g, i.at) && t == Step(c, s, i) && h == g + if GuessAt(s, i, p) then 1 else 0
    ensures Safe(c, t, p, t0, h, i.at)
  {
    hide Step, View, WithinLimit, ResetAt, GuessAt, FromPeople, LockIsRecent, Rooted;
    StepStaysGuarded(c, s, i, t0, g, p);
  }

  lemma {:induction false} CountsAreGuarded(c: Config, run: seq<Input>, t: seq<State>, a: nat, b: nat, p: Phone)
    requires Run(c, run, t) && c.Ordinary(p) && !IsTelegram(p) && a < b <= |run| && NoReset(run, t, a, b, p)
    ensures Safe(c, t[b], p, run[a].at, Guesses(run, t, a, b, p), run[b - 1].at)
    decreases b
  {
    hide Step, FromPeople, View, WithinLimit, GuessAt, ResetAt;
    var k := b - 1;
    LocksAreRecent(c, run, t, k, p);
    if a < k {
      CountsAreGuarded(c, run, t, a, k, p);
    } else {
      NoGuessYet(c, View(t[a], p), run[a].at);
    }
    StepOfRun(c, run, t, k);
    assert !ResetAt(t[k], run[k], p);
    SafeNext(c, t[k], t[b], run[k], run[a].at, Guesses(run, t, a, k, p), Guesses(run, t, a, b, p), p);
  }

  lemma NoGuessYet(c: Config, v: PinView, t0: nat)
    ensures WithinLimit(c, v, t0, 0)
  {
  }

  lemma StepKeepsLockRecent(c: Config, s: State, t: State, i: Input, p: Phone)
    requires c.Valid() && c.Ordinary(p) && !IsTelegram(p) && FromPeople(c, i) && Rooted(c, s) && t == Step(c, s, i)
    requires LockIsRecent(c, View(s, p), i.at)
    ensures LockIsRecent(c, View(t, p), i.at)
  {
    if By(s, i, p) {
      DispatchCounts(c, s, i.at, p, Expanded(s, i));
    } else {
      OthersDoNotCount(c, s, i, p);
    }
  }

  /** Locks are recent in every state, resets or not. */
  lemma {:induction false} LocksAreRecent(c: Config, run: seq<Input>, t: seq<State>, k: nat, p: Phone)
    requires Run(c, run, t) && c.Ordinary(p) && !IsTelegram(p) && k < |run|
    ensures LockIsRecent(c, View(t[k], p), run[k].at)
  {
    hide Step, FromPeople;
    if k > 0 {
      LocksAreRecent(c, run, t, k - 1, p);
      StepOfRun(c, run, t, k - 1);
      StepKeepsLockRecent(c, t[k - 1], t[k], run[k - 1], p);
      assert run[k - 1].at <= run[k].at;
    }
  }

  /** Guesses a span of time allows: the limit at once, and one more for each lock time. */
  function Allowance(c: Config, span: int): int
    requires c.lockMs >= 1
    decreases span
  {
    if span < c.lockMs then c.maxFails else Allowance(c, span - c.lockMs) + 1
  }

  /** That is the limit plus the span divided by the lock time. */
  lemma {:induction false} AllowanceIsQuotient(c: Config, span: nat)
    requires c.lockMs >= 1
    ensures Allowance(c, span) == c.maxFails + span / c.lockMs
    decreases span
  {
    if span >= c.lockMs {
      AllowanceIsQuotient(c, span - c.lockMs);
      OneLockLess(span, c.lockMs);
    } else {
      assert span / c.lockMs == 0;
    }
  }

  lemma OneLockLess(span: nat, lock: nat)
    requires span >= lock >= 1
    ensures span / lock == (span - lock) / lock + 1
  {
    var q, r := (span - lock) / lock, (span - lock) % lock;
    assert span - lock == q * lock + r;
    assert (q + 1) * lock == q * lock + lock;
    Quotient(span, lock, q + 1, r);
  }

  lemma Quotient(n: nat, lock: nat, q: nat, r: nat)
    requires r < lock && n == q * lock + r
    ensures n / lock == q
  {
    var a, b := n / lock, n % lock;
    assert n == a * lock + b;
    assert (a - q) * lock == r - b;
    Small(a - q, lock);
  }

  lemma Small(d: int, lock: nat)
    requires 0 - lock < d * lock < lock
    ensures d == 0
  {
  }

  /** A chat account is never asked for a PIN. */
  lemma {:induction false} ChatsNeverGuess(run: seq<Input>, t: seq<State>, a: nat, b: nat, p: Phone)
    requires b <= |run| && |t| == |run| + 1 && IsTelegram(p)
    ensures Guesses(run, t, a, b, p) == 0
    decreases b
  {
    if a < b {
      ChatsNeverGuess(run, t, a, b - 1, p);
    }
  }

  lemma {:induction false} AllowanceIsPositive(c: Config, span: int)
    requires c.lockMs >= 1
    ensures Allowance(c, span) >= c.maxFails
    decreases span
  {
    if span >= c.lockMs {
      AllowanceIsPositive(c, span - c.lockMs);
    }
  }

  /** Between two resets of p's PIN, wrong PINs tested for rules and payments in a span of time number
      at most the configured limit plus the span divided by the lock time: the count is not cleared
      when a lock runs out, so each further try locks the account again. */
  lemma GuessesAreBounded(c: Config, run: seq<Input>, t: seq<State>, a: nat, b: nat, p: Phone)
    requires Run(c, run, t) && c.Ordinary(p) && a < b <= |run| && NoReset(run, t, a, b, p)
    ensures Guesses(run, t, a, b, p) <= Allowance(c, run[b - 1].at - run[a].at)
  {
    hide Step, FromPeople, Safe, Guesses, NoReset;
    if IsTelegram(p) {
      ChatsNeverGuess(run, t, a, b, p);
      AllowanceIsPositive(c, run[b - 1].at - run[a].at);
    } else {
      CountsAreGuarded(c, run, t, a, b, p);
      SafeMeansBound(c, t[b], p, run[a].at, Guesses(run, t, a, b, p), run[b - 1].at);
    }
  }

  lemma SafeMeansBound(c: Config, s: State, p: Phone, t0: nat, g: nat, now: nat)
    requires c.lockMs >= 1 && Safe(c, s, p, t0, g, now)
    ensures g <= Allowance(c, now - t0)
  {
    LimitMeansBound(c, View(s, p), t0, now, g);
  }

  lemma LimitMeansBound(c: Config, v: PinView, t0: nat, now: nat, g: nat)
    requires c.lockMs >= 1 && t0 <= now && WithinLimit(c, v, t0, g) && LockIsRecent(c, v, now)
    ensures g <= Allowance(c, now - t0)
  {
    if g > c.maxFails {
      WaitsFit(c, g - c.maxFails, now - t0);
    } else {
      WaitsFit(c, 0, now - t0);
    }
  }

  /** If n waits fit into a span, the span allows n guesses beyond the limit. */
  lemma {:induction false} WaitsFit(c: Config, n: nat, span: nat)
    requires c.lockMs >= 1 && Waits(n, c.lockMs) <= span
    ensures c.maxFails + n <= Allowance(c, span)
    decreases span
  {
    if span >= c.lockMs {
      WaitsFit(c, if n > 0 then n - 1 else 0, span - c.lockMs);
    }
  }
}
