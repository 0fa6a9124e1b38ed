/** The handlers of orchestrator/src/lib/pipeline.ts run on the desk, one table operation at a
    time.  Each is proved to have exactly the effect that module Pipeline gives it, so every
    theorem about those effects is a theorem about these methods. */
module Handlers {
  import opened Text
  import opened Tables
  import opened Settings
  import opened Policy
  import opened Payees
  import opened Pipeline
  import opened Calendar
  import Claims
  import Names

  method ContinueOnboardOrGreet(desk: Desk, p: Phone) returns (r: Reply)
    requires p in desk.users
    modifies desk
    ensures (desk.Now(), r) == GreetFx(old(desk.Now()), p)
  {
    if desk.users[p].name.None? {
      desk.SetPending(p, Some(AwaitingName));
      return NeedsName;
    }
    if !Onboarded(desk.users[p]) {
      return NeedsSetPin;
    }
    desk.SetPending(p, None);
    r := Greeting;
  }

  method FinishNaming(desk: Desk, p: Phone, name: string) returns (r: Reply)
    modifies desk
    ensures (desk.Now(), r) == FinishNamingFx(old(desk.Now()), p, name)
  {
    desk.EnsureWallet(p);
    desk.SetUser(p, desk.users[p].(name := Some(name)));
    desk.SetPending(p, None);
    r := NeedsSetPin;
  }

  method CompletePinSetup(desk: Desk, c: Config, now: nat, p: Phone, pin: string, payouts: seq<Outcome>) returns (r: Reply)
    modifies desk
    ensures (desk.Now(), r) == CompletePinFx(c, old(desk.Now()), now, p, pin, payouts)
  {
    desk.EnsureWallet(p);
    desk.SetPin(p, pin);
    desk.SetPending(p, None);
    var n := Claims.FulfillPendingClaimsFor(desk, c, now, p, payouts);
    r := PinReady(n);
  }

  method SetPin(desk: Desk, c: Config, now: nat, p: Phone, pin: string, payouts: seq<Outcome>) returns (r: Reply)
    modifies desk
    ensures (desk.Now(), r) == SetPinFx(c, old(desk.Now()), now, p, pin, payouts)
  {
    desk.EnsureWallet(p);
    if desk.users[p].name.None? {
      desk.SetPending(p, Some(AwaitingName));
      return NeedsName;
    }
    if Onboarded(desk.users[p]) {
      return Noted;
    }
    r := CompletePinSetup(desk, c, now, p, pin, payouts);
  }

  method ChangePin(desk: Desk, p: Phone, oldPin: string, newPin: string) returns (r: Reply)
    modifies desk
    ensures (desk.Now(), r) == ChangePinFx(old(desk.Now()), p, oldPin, newPin)
  {
    desk.EnsureWallet(p);
    if !PinMatches(desk.users[p], oldPin) {
      return WrongPin;
    }
    desk.SetPin(p, newPin);
    desk.ClearPinFailures(p);
    r := Noted;
  }

  method Recover(desk: Desk, c: Config, now: nat, p: Phone, code: string) returns (r: Reply)
    modifies desk
    ensures (desk.Now(), r) == RecoverFx(c, old(desk.Now()), now, p, code)
  {
    desk.EnsureWallet(p);
    if desk.users[p].pin.Some? {
      desk.SetUser(p, desk.users[p].(recovery := Some(Recovery(code, now + c.recoveryMs))));
    }
    r := Noted;
  }

  method ConfirmRecovery(desk: Desk, c: Config, now: nat, p: Phone, code: string, pin: string) returns (r: Reply)
    modifies desk
    ensures (desk.Now(), r) == RecoverConfirmFx(c, old(desk.Now()), now, p, code, pin)
  {
    desk.EnsureWallet(p);
    var u := desk.users[p];
    r := Noted;
    if u.recovery.None? {
      return;
    }
    if u.recovery.value.expires < now {
      desk.SetUser(p, u.(recovery := None));
      return;
    }
    if u.recovery.value.code != code {
      return;
    }
    ghost var t := desk.users;
    desk.SetPin(p, pin);
    desk.SetUser(p, desk.users[p].(recovery := None));
    desk.ClearPinFailures(p);
    desk.SetUser(p, desk.users[p].(riskUntil := Some(now + c.cooldownMs)));
    assert desk.users == t[p := desk.users[p]];
  }

  // ----- settling -----

  method Finish(desk: Desk, p: Phone, key: Key, result: Reply)
    modifies desk
    ensures (desk.Now(), result) == FinishFx(old(desk.Now()), p, key, result)
  {
    desk.SetPending(p, None);
    desk.SaveIdempotentResult(key, result);
  }

  method ExecuteSend(desk: Desk, c: Config, now: nat, p: Phone, m: Pending, o: Outcome) returns (r: Reply)
    requires m.PSend?
    modifies desk
    ensures (desk.Now(), r) == SendFx(c, old(desk.Now()), now, p, m, o)
  {
    var found := desk.ClaimIdempotency(m.key);
    if found.Some? {
      return Replay(found.value);
    }
    r := CouldNot;
    if m.pendingClaim && m.toPhone.Some? {
      var id := Claims.HoldPendingClaim(desk, c, now, p, m.toPhone.value, m.amount, o);
      if id.Some? {
        r := HeldFor(m.amount, id.value);
        Finish(desk, p, m.key, r);
      }
      return;
    }
    if m.toAddress.None? {
      return;
    }
    var ok := desk.TransferUsdc(p, m.toAddress.value, m.amount, o);
    if !ok {
      return;
    }
    var to := m.toPhone.Or(m.toAddress.value);
    desk.AddLedger(LedgerRow(p, Send, m.amount, Some(to), now));
    if m.toPhone.Some? {
      desk.AddLedger(LedgerRow(m.toPhone.value, Receive, m.amount, Some(p), now));
    }
    r := Sent(m.amount, m.toPhone.Or(m.toLabel));
    Finish(desk, p, m.key, r);
  }

  method MoveSwap(desk: Desk, p: Phone, m: Pending, o: Outcome, got: nat) returns (ok: bool)
    requires m.PSwap?
    modifies desk
    ensures (desk.Now(), ok) == SwapMove(old(desk.Now()), p, m, o, got)
  {
    if p !in desk.users || m.tokenIn == m.tokenOut || (m.tokenIn == USDC && m.amount > desk.Now().Bal(p)) {
      return false;
    }
    if m.tokenIn == USDC {
      ok := desk.TransferUsdc(p, POOL, m.amount, o);
    } else {
      ok := o.Landed?;
    }
    if m.tokenOut == USDC && !o.Threw? {
      var a := WalletOf(p);
      desk.balance := desk.balance[a := (if a in desk.balance then desk.balance[a] else 0) + got];
    }
  }

  method ExecuteSwap(desk: Desk, now: nat, p: Phone, m: Pending, o: Outcome, got: nat) returns (r: Reply)
    requires m.PSwap?
    modifies desk
    ensures (desk.Now(), r) == SwapFx(old(desk.Now()), now, p, m, o, got)
  {
    var found := desk.ClaimIdempotency(m.key);
    if found.Some? {
      return Replay(found.value);
    }
    var ok := MoveSwap(desk, p, m, o, got);
    if !ok {
      return CouldNot;
    }
    desk.AddLedger(LedgerRow(p, Swap, if m.tokenIn == USDC then m.amount else 0, None, now));
    r := Swapped(m.amount, got);
    Finish(desk, p, m.key, r);
  }

  method FulfillAirtime(desk: Desk, c: Config, p: Phone, charge: nat, env: Env) returns (ok: bool)
    modifies desk
    ensures (desk.Now(), ok) == AirtimeMove(c, old(desk.Now()), p, charge, env)
  {
    desk.EnsureWallet(c.sink);
    ok := desk.TransferUsdc(p, WalletOf(c.sink), charge, env.outcome);
    if ok && !env.delivered {
      if p in desk.users {
        var refunded := desk.TransferUsdc(c.sink, WalletOf(p), charge, env.refund);
      }
      ok := false;
    }
  }

  method ExecuteTopup(desk: Desk, c: Config, now: nat, p: Phone, m: Pending, env: Env) returns (r: Reply)
    requires m.PTopup?
    modifies desk
    ensures (desk.Now(), r) == TopupFx(c, old(desk.Now()), now, p, m, env)
  {
    var found := desk.ClaimIdempotency(m.key);
    if found.Some? {
      return Replay(found.value);
    }
    var ok := FulfillAirtime(desk, c, p, m.charge, env);
    if !ok {
      return CouldNot;
    }
    desk.AddLedger(LedgerRow(p, Airtime, m.charge, Some(m.msisdn), now));
    r := ToppedUp(m.charge);
    Finish(desk, p, m.key, r);
  }

  method AttachSendMemo(desk: Desk, p: Phone, memo: string) returns (r: Reply)
    modifies desk
    ensures (desk.Now(), r) == MemoFx(old(desk.Now()), p, memo)
  {
    if p in desk.sessions && desk.sessions[p].PSend? {
      desk.SetPending(p, Some(desk.sessions[p].(memo := CutMemo(memo))));
    }
    r := Noted;
  }

  // ----- confirming -----

  method CheckPin(desk: Desk, c: Config, now: nat, p: Phone, pin: Option<string>) returns (stop: Option<Reply>)
    requires p in desk.users
    modifies desk
    ensures (desk.Now(), stop) == PinStep(c, old(desk.Now()), now, p, pin)
  {
    if !Onboarded(desk.users[p]) {
      var r := ContinueOnboardOrGreet(desk, p);
      return Some(r);
    }
    if PinLocked(desk.users[p], now) {
      return Some(PinLockedOut);
    }
    if pin.None? {
      return Some(NeedsPin);
    }
    if !PinMatches(desk.users[p], pin.value) {
      desk.RecordPinFailure(p, now, c.maxFails, c.lockMs);
      if PinLocked(desk.users[p], now) {
        desk.SetPending(p, None);
        return Some(PinJustLocked);
      }
      return Some(WrongPin);
    }
    desk.ClearPinFailures(p);
    stop := None;
  }

  method ConfirmRules(desk: Desk, c: Config, now: nat, p: Phone, draft: seq<FrozenRule>, pin: Option<string>) returns (r: Reply)
    requires p in desk.users
    modifies desk
    ensures (desk.Now(), r) == ConfirmRulesFx(c, old(desk.Now()), now, p, draft, pin)
  {
    if !Onboarded(desk.users[p]) {
      r := ContinueOnboardOrGreet(desk, p);
      return;
    }
    if PinLocked(desk.users[p], now) {
      return PinLockedOut;
    }
    if pin.None? {
      return NeedsPin;
    }
    if !PinMatches(desk.users[p], pin.value) {
      desk.RecordPinFailure(p, now, c.maxFails, c.lockMs);
      return WrongPin;
    }
    desk.ClearPinFailures(p);
    ClearFrozenRules(desk, p);
    FreezeRules(desk, p, draft);
    desk.SetPending(p, None);
    r := RulesFrozen(draft);
  }

  method ConfirmOrder(desk: Desk, c: Config, now: nat, p: Phone, m: Pending, pin: Option<string>) returns (r: Reply)
    requires p in desk.users && m.PStanding?
    modifies desk
    ensures (desk.Now(), r) == ConfirmOrderFx(c, old(desk.Now()), now, p, m, pin)
  {
    if pin.None? {
      return NeedsPin;
    }
    if !PinMatches(desk.users[p], pin.value) {
      desk.RecordPinFailure(p, now, c.maxFails, c.lockMs);
      return WrongPin;
    }
    desk.ClearPinFailures(p);
    var next := if m.cadence == Monthly then FirstOfNextMonth(now) else NextStandingRun(Weekly, now);
    r := OrderOpened(|desk.orders|);
    desk.orders := desk.orders + [StandingOrder(p, m.amount, m.toLabel, m.toPhone, m.toAddress, m.cadence, next, true)];
    desk.SetPending(p, None);
  }

  method ConfirmLock(desk: Desk, c: Config, now: nat, p: Phone, m: Pending, pin: Option<string>) returns (r: Reply)
    requires p in desk.users && m.PLock?
    modifies desk
    ensures (desk.Now(), r) == ConfirmLockFx(c, old(desk.Now()), now, p, m, pin)
  {
    if pin.None? {
      return NeedsPin;
    }
    if !PinMatches(desk.users[p], pin.value) {
      desk.RecordPinFailure(p, now, c.maxFails, c.lockMs);
      return WrongPin;
    }
    desk.ClearPinFailures(p);
    r := LockOpened(|desk.locks|);
    desk.locks := desk.locks + [LockRow(p, m.amount, m.unlockAt, true)];
    desk.SetPending(p, None);
    desk.AddLedger(LedgerRow(p, SavingsLock, m.amount, None, now));
  }

  method ConfirmPayment(desk: Desk, c: Config, now: nat, p: Phone, m: Pending, pin: Option<string>, env: Env) returns (r: Reply)
    requires p in desk.users && (m.PSend? || m.PSwap? || m.PTopup?)
    modifies desk
    ensures (desk.Now(), r) == ConfirmPaymentFx(c, old(desk.Now()), now, p, m, pin, env)
  {
    var stop := CheckPin(desk, c, now, p, pin);
    if stop.Some? {
      return stop.value;
    }
    if m.PSend? {
      r := ExecuteSend(desk, c, now, p, m, env.outcome);
    } else if m.PSwap? {
      r := ExecuteSwap(desk, now, p, m, env.outcome, env.got);
    } else {
      r := ExecuteTopup(desk, c, now, p, m, env);
    }
  }

  method ConfirmPending(desk: Desk, c: Config, now: nat, p: Phone, pin: Option<string>, policyWord: bool, env: Env) returns (r: Reply)
    modifies desk
    ensures (desk.Now(), r) == ConfirmFx(c, old(desk.Now()), now, p, pin, policyWord, env)
  {
    desk.EnsureWallet(p);
    if p !in desk.sessions {
      return NothingPending;
    }
    var m := desk.sessions[p];
    var payPin := if policyWord then None else pin;
    if m.PPolicy? {
      r := ConfirmRules(desk, c, now, p, m.rules, pin);
    } else if m.PStanding? {
      r := ConfirmOrder(desk, c, now, p, m, payPin);
    } else if m.PLock? {
      r := ConfirmLock(desk, c, now, p, m, payPin);
    } else if m.PSend? || m.PSwap? || m.PTopup? {
      r := ConfirmPayment(desk, c, now, p, m, payPin, env);
    } else {
      r := NothingPending;
    }
  }

  // ----- requests -----

  /** The gate for a send, with the lock release it does on the way. */
  method EvaluateSend(desk: Desk, c: Config, now: nat, p: Phone, amount: nat, payee: string, phone: Option<Phone>) returns (v: Verdict)
    requires |c.tiers| == 3
    modifies desk
    ensures (v, desk.Now()) == SendGate(c, old(desk.Now()), now, p, amount, payee, phone)
  {
    var s := desk.Now();
    var lim := LimitsFor(c, s.Tier(p));
    if amount == 0 || amount > lim.hardCeiling {
      return Reject;
    }
    if payee != "" {
      var broken := ApplyUserRules(desk, p, amount, payee, phone);
      if broken.Some? {
        return Reject;
      }
    }
    if CoolsDown(c, s, p, amount, now) {
      return Reject;
    }
    if amount > c.callbackThreshold.Or(lim.perTx) && !(p in s.users && Active(s.users[p].callbackUntil, now)) {
      return Callback;
    }
    if p in desk.users {
      desk.ReleaseMaturedLocks(p, now);
    }
    if LockBlocks(s, p, amount, now) {
      return Reject;
    }
    if amount > lim.perTx {
      return Confirm;
    }
    v := if SentToday(s, p, now) + amount > lim.daily then Reject else Confirm;
  }

  method RequestSend(desk: Desk, c: Config, now: nat, p: Phone, amount: nat, to: string, memo: string) returns (r: Reply)
    requires |c.tiers| == 3
    modifies desk
    ensures (desk.Now(), r) == RequestSendFx(c, old(desk.Now()), now, p, amount, to, memo)
  {
    var found := Resolve(c, desk.Now(), p, to);
    if found.None? {
      return UnknownPayee;
    }
    var q := found.value;
    var v := EvaluateSend(desk, c, now, p, amount, q.title, q.phone);
    if v == Reject {
      return Refused;
    }
    if v == Callback {
      return NeedsCallback;
    }
    var key := desk.FreshKey();
    desk.SetPending(p, Some(PSend(amount, q.title, q.address, q.phone, q.pendingClaim, key, memo)));
    r := NeedsPin;
  }

  method EvaluateSpend(desk: Desk, c: Config, now: nat, p: Phone, amount: nat) returns (v: Verdict)
    requires |c.tiers| == 3
    modifies desk
    ensures (v, desk.Now()) == SpendGate(c, old(desk.Now()), now, p, amount)
  {
    var s := desk.Now();
    var lim := LimitsFor(c, s.Tier(p));
    if amount > lim.hardCeiling || CoolsDown(c, s, p, amount, now) {
      return Reject;
    }
    if p in desk.users {
      desk.ReleaseMaturedLocks(p, now);
    }
    v := if LockBlocks(s, p, amount, now) || SpentToday(s, p, now) + amount > lim.daily then Reject else Confirm;
  }

  method RequestSwap(desk: Desk, c: Config, now: nat, p: Phone, amount: nat, tokenIn: Token, tokenOut: Token) returns (r: Reply)
    requires |c.tiers| == 3
    modifies desk
    ensures (desk.Now(), r) == RequestSwapFx(c, old(desk.Now()), now, p, amount, tokenIn, tokenOut)
  {
    if amount == 0 || tokenIn == tokenOut {
      return Refused;
    }
    if tokenIn == USDC {
      var v := EvaluateSpend(desk, c, now, p, amount);
      if v == Reject {
        return Refused;
      }
    } else if amount > LimitsFor(c, desk.Now().Tier(p)).hardCeiling {
      return Refused;
    }
    var key := desk.FreshKey();
    desk.SetPending(p, Some(PSwap(amount, tokenIn, tokenOut, key)));
    r := NeedsPin;
  }

  method RequestTopup(desk: Desk, c: Config, now: nat, p: Phone, face: nat, euro: bool, to: Option<string>) returns (r: Reply)
    requires |c.tiers| == 3
    modifies desk
    ensures (desk.Now(), r) == RequestTopupFx(c, old(desk.Now()), now, p, face, euro, to)
  {
    var charge := AirtimeCharge(c, face, euro);
    if charge == 0 {
      return Refused;
    }
    var v := EvaluateSpend(desk, c, now, p, charge);
    if v == Reject {
      return Refused;
    }
    var msisdn := if to.Some? then NormalizePhone(to.value) else p;
    var key := desk.FreshKey();
    desk.SetPending(p, Some(PTopup(charge, msisdn, key)));
    r := NeedsPin;
  }

  method RequestLock(desk: Desk, now: nat, p: Phone, amount: nat, until: Option<nat>) returns (r: Reply)
    modifies desk
    ensures (desk.Now(), r) == RequestLockFx(old(desk.Now()), now, p, amount, until)
  {
    if until.None? {
      return Noted;
    }
    var available := desk.Now().Available(p, now);
    desk.ReleaseMaturedLocks(p, now);
    if amount > available {
      return Refused;
    }
    desk.SetPending(p, Some(PLock(amount, until.value)));
    r := NeedsPin;
  }

  method SaveContact(desk: Desk, c: Config, p: Phone, contact: string, target: string) returns (r: Reply)
    modifies desk
    ensures (desk.Now(), r) == SaveContactFx(c, old(desk.Now()), p, contact, target)
  {
    var k := (p, Lower(contact));
    var was := if k in desk.contacts then desk.contacts[k] else Contact(None, None);
    if c.isAddress(target) {
      desk.contacts := desk.contacts[k := was.(address := Some(target))];
    } else if StartsWith(target, "+") || (target != "" && forall i | 0 <= i < |target| :: IsDigit(target[i])) {
      desk.contacts := desk.contacts[k := was.(phone := Some(NormalizePhone(target)))];
    }
    r := Noted;
  }

  method ServeMoney(desk: Desk, c: Config, now: nat, p: Phone, intent: Intent) returns (r: Reply)
    requires |c.tiers| == 3 && p in desk.users
    modifies desk
    ensures (desk.Now(), r) == ServeMoneyFx(c, old(desk.Now()), now, p, intent)
  {
    hide RequestSendFx, RequestSwapFx, RequestTopupFx, RequestLockFx;
    match intent
    case SendTo(amount, to, memo) => r := RequestSend(desk, c, now, p, amount, to, memo);
    case SwapFor(amount, tokenIn, tokenOut) => r := RequestSwap(desk, c, now, p, amount, tokenIn, tokenOut);
    case Topup(face, euro, to) => r := RequestTopup(desk, c, now, p, face, euro, to);
    case LockSavings(amount, until) => r := RequestLock(desk, now, p, amount, until);
    case _ => r := Noted;
  }

  method RequestOrder(desk: Desk, c: Config, p: Phone, amount: nat, to: string, cadence: Cadence) returns (r: Reply)
    modifies desk
    ensures (desk.Now(), r) == RequestOrderFx(c, old(desk.Now()), p, amount, to, cadence)
  {
    var found := Resolve(c, desk.Now(), p, to);
    if found.None? {
      return UnknownPayee;
    }
    desk.SetPending(p, Some(PStanding(amount, found.value.title, found.value.phone, found.value.address, cadence)));
    r := NeedsPin;
  }

  method CancelOrder(desk: Desk, p: Phone, id: nat)
    modifies desk
    ensures desk.Now() == CancelOrderFx(old(desk.Now()), p, id)
  {
    if id < |desk.orders| && desk.orders[id].phone == p && desk.orders[id].active {
      desk.orders := desk.orders[id := desk.orders[id].(active := false)];
    }
  }

  method UpgradeIdentity(desk: Desk, p: Phone, accepted: bool, sim: bool)
    requires p in desk.users
    modifies desk
    ensures desk.Now() == IdentityFx(old(desk.Now()), p, accepted, sim)
  {
    if accepted {
      var tier := if sim then 2 else Max(desk.users[p].tier, 1);
      desk.SetUser(p, desk.users[p].(tier := tier));
    }
  }

  method LookUpPrice(desk: Desk, c: Config, now: nat, p: Phone, got: nat) returns (r: Reply)
    requires |c.tiers| == 3
    modifies desk
    ensures (desk.Now(), r) == PriceFx(c, old(desk.Now()), now, p, got)
  {
    if PriceGate(c, desk.Now(), now, p) == Reject {
      return Refused;
    }
    desk.AddLedger(LedgerRow(p, Nanopay, got, None, now));
    r := Noted;
  }

  method ServeOrders(desk: Desk, c: Config, p: Phone, intent: Intent) returns (r: Reply)
    modifies desk
    ensures (desk.Now(), r) == ServeOrdersFx(c, old(desk.Now()), p, intent)
  {
    r := Noted;
    if intent.SetPolicy? {
      if intent.draft != [] {
        desk.SetPending(p, Some(PPolicy(intent.draft)));
        r := NeedsPin;
      }
    } else if intent.ClearPolicy? {
      ClearFrozenRules(desk, p);
    } else if intent.Standing? {
      r := RequestOrder(desk, c, p, intent.amount, intent.to, intent.cadence);
    } else if intent.CancelStanding? {
      CancelOrder(desk, p, intent.id);
    } else if intent.Shop? && intent.found {
      desk.SetPending(p, Some(PShop));
    } else if intent.Buy? && intent.found {
      desk.SetPending(p, None);
    }
  }

  method ServeProfile(desk: Desk, c: Config, now: nat, p: Phone, intent: Intent, got: nat) returns (r: Reply)
    requires |c.tiers| == 3 && p in desk.users
    modifies desk
    ensures (desk.Now(), r) == ServeProfileFx(c, old(desk.Now()), now, p, intent, got)
  {
    r := Noted;
    if intent.ClaimName? {
      var claimed := Names.ClaimName(desk, p, intent.raw);
    } else if intent.VerifyId? {
      UpgradeIdentity(desk, p, intent.wellFormed, false);
    } else if intent.AttestSim? {
      UpgradeIdentity(desk, p, intent.accepted, true);
    } else if intent.Balance? {
      desk.ReleaseMaturedLocks(p, now);
    } else if intent.Save? {
      r := SaveContact(desk, c, p, intent.contact, intent.target);
    } else if intent.Price? {
      r := LookUpPrice(desk, c, now, p, got);
    }
  }

  method ReportSimChange(desk: Desk, c: Config, now: nat, p: Phone) returns (r: Reply)
    modifies desk
    ensures (desk.Now(), r) == RiskFx(c, old(desk.Now()), now, p)
  {
    desk.EnsureWallet(p);
    desk.SetUser(p, desk.users[p].(riskUntil := Some(now + c.cooldownMs)));
    r := Noted;
  }

  method VerifyCallback(desk: Desk, c: Config, now: nat, p: Phone) returns (r: Reply)
    modifies desk
    ensures (desk.Now(), r) == CallbackFx(c, old(desk.Now()), now, p)
  {
    desk.EnsureWallet(p);
    desk.SetUser(p, desk.users[p].(callbackUntil := Some(now + c.callbackMs)));
    r := Noted;
  }

  method AnswerName(desk: Desk, p: Phone, m: Message) returns (r: Reply)
    modifies desk
    ensures (desk.Now(), r) == NameAnswerFx(old(desk.Now()), p, m)
  {
    if m.intent.SetName? {
      r := FinishNaming(desk, p, m.intent.name);
    } else if m.bareName.Some? {
      r := FinishNaming(desk, p, m.bareName.value);
    } else {
      r := NeedsName;
    }
  }

  method JoinOrGreet(desk: Desk, p: Phone, name: Option<string>) returns (r: Reply)
    modifies desk
    ensures (desk.Now(), r) == JoinFx(old(desk.Now()), p, name)
  {
    if name.Some? {
      r := FinishNaming(desk, p, name.value);
    } else {
      desk.EnsureWallet(p);
      r := ContinueOnboardOrGreet(desk, p);
    }
  }

  method GateAndServe(desk: Desk, c: Config, now: nat, p: Phone, intent: Intent, env: Env) returns (r: Reply)
    requires |c.tiers| == 3
    modifies desk
    ensures (desk.Now(), r) == GateFx(c, old(desk.Now()), now, p, intent, env)
  {
    desk.EnsureWallet(p);
    if !Onboarded(desk.users[p]) {
      r := ContinueOnboardOrGreet(desk, p);
    } else if AsksForMoney(intent) {
      r := ServeMoney(desk, c, now, p, intent);
    } else if IsOrdersIntent(intent) {
      r := ServeOrders(desk, c, p, intent);
    } else {
      r := ServeProfile(desk, c, now, p, intent, env.got);
    }
  }

  method HandleAccount(desk: Desk, c: Config, now: nat, p: Phone, intent: Intent, env: Env) returns (r: Reply)
    requires IsAccountIntent(intent)
    modifies desk
    ensures (desk.Now(), r) == AccountFx(c, old(desk.Now()), now, p, intent, env)
  {
    if intent.SetName? {
      r := FinishNaming(desk, p, intent.name);
    } else if intent.Hello? {
      r := JoinOrGreet(desk, p, None);
    } else if intent.SetPinTo? {
      r := SetPin(desk, c, now, p, intent.newPin, env.payouts);
    } else if intent.ChangePin? {
      r := ChangePin(desk, p, intent.oldPin, intent.newPin);
    } else if intent.RecoverPin? {
      r := Recover(desk, c, now, p, env.code);
    } else if intent.RecoverConfirm? {
      r := ConfirmRecovery(desk, c, now, p, intent.code, intent.newPin);
    } else if intent.ReportSim? {
      r := ReportSimChange(desk, c, now, p);
    } else if intent.CallbackVerify? {
      r := VerifyCallback(desk, c, now, p);
    } else {
      r := JoinOrGreet(desk, p, intent.withName);
    }
  }

  method Dispatch(desk: Desk, c: Config, now: nat, p: Phone, m: Message) returns (r: Reply)
    requires |c.tiers| == 3
    modifies desk
    ensures (desk.Now(), r) == DispatchFx(c, old(desk.Now()), now, p, m)
  {
    if p in desk.sessions && desk.sessions[p] == AwaitingName {
      r := AnswerName(desk, p, m);
    } else if IsAccountIntent(m.intent) {
      r := HandleAccount(desk, c, now, p, m.intent, m.env);
    } else if m.intent.Rate? {
      desk.AddLedger(LedgerRow(p, Nanopay, m.env.got, None, now));
      r := Noted;
    } else if m.intent.Cancel? {
      desk.SetPending(p, None);
      r := Cancelled;
    } else if m.intent.ConfirmWith? {
      r := ConfirmPending(desk, c, now, p, m.intent.pin, false, m.env);
    } else if m.intent.ConfirmPolicy? {
      r := ConfirmPending(desk, c, now, p, m.intent.pin, true, m.env);
    } else {
      r := GateAndServe(desk, c, now, p, m.intent, m.env);
    }
  }

  method HandleMessage(desk: Desk, c: Config, now: nat, raw: string, m: Message) returns (r: Reply)
    requires |c.tiers| == 3
    modifies desk
    ensures (desk.Now(), r) == HandleFx(c, old(desk.Now()), now, raw, m)
  {
    var p := NormalizePhone(raw);
    if IsTelegram(p) {
      return Noted;
    }
    var intent := ExpandDigits(desk.Now(), p, m.intent);
    r := Dispatch(desk, c, now, p, m.(intent := intent));
  }
}
