/** The conversation state machine that turns a message into a policy-checked, PIN-confirmed,
    idempotent payment (orchestrator/src/lib/pipeline.ts), outside demo mode and without
    asynchronous settlement.  Each function ending in `Fx` is the effect of one handler on the
    tables; the methods below run the same handlers on the desk, one table operation at a time. */
module Pipeline {
  import opened Text
  import opened Tables
  import opened Settings
  import opened Policy
  import opened Payees
  import opened Calendar
  import Claims
  import Names

  datatype Intent =
    | SetName(name: string)
    | Hello
    | SetPinTo(newPin: string)
    | ChangePin(oldPin: string, newPin: string)
    | RecoverPin
    | RecoverConfirm(code: string, newPin: string)
    | ReportSim
    | CallbackVerify
    | Cancel
    | ConfirmWith(pin: Option<string>)
    | ConfirmPolicy(pin: Option<string>)
    | Join(withName: Option<string>)
    | Rate
    | Price
    | SetPolicy(draft: seq<FrozenRule>)
    | ClearPolicy
    | Standing(amount: nat, to: string, cadence: Cadence)
    | CancelStanding(id: nat)
    | LockSavings(amount: nat, until: Option<nat>)
    | Shop(found: bool)
    | Buy(found: bool)
    | ClaimName(raw: string)
    | VerifyId(wellFormed: bool)
    | AttestSim(accepted: bool)
    | Balance
    | Save(contact: string, target: string)
    | SendTo(amount: nat, to: string, memo: string)
    | SwapFor(amount: nat, tokenIn: Token, tokenOut: Token)
    | Topup(face: nat, euro: bool, forPhone: Option<string>)
    | Digits(digits: string)
    | Other

  /** What the outside world decides while a message is handled: how transfers end, whether the
      airtime provider delivers, what a swap pays out, and the recovery code that is drawn. */
  datatype Env = Env(outcome: Outcome, refund: Outcome, delivered: bool, got: nat, payouts: seq<Outcome>, code: string)

  /** A message: its intent, and the bare first name its text would be if one is awaited. */
  datatype Message = Message(intent: Intent, bareName: Option<string>, env: Env)

  const POOL := "pool"

  // ----- onboarding -----

  /** `continueOnboardOrGreet` for a known caller. */
  function GreetFx(s: State, p: Phone): (State, Reply)
    requires p in s.users
  {
    if s.users[p].name.None? then (s.PutPending(p, Some(AwaitingName)), NeedsName)
    else if !Onboarded(s.users[p]) then (s, NeedsSetPin)
    else (s.PutPending(p, None), Greeting)
  }

  /** `finishNaming`. */
  function FinishNamingFx(s: State, p: Phone, name: string): (State, Reply) {
    var t := s.WithUser(p);
    (t.PutUser(p, t.users[p].(name := Some(name))).PutPending(p, None), NeedsSetPin)
  }

  /** `completePinSetup`: the PIN, then every claim held for this number. */
  function CompletePinFx(c: Config, s: State, now: nat, p: Phone, pin: string, payouts: seq<Outcome>): (State, Reply) {
    var t := s.WithUser(p).PutPin(p, pin).PutPending(p, None);
    var (u, n) := Claims.Fulfil(c, t, now, p, payouts);
    (u, PinReady(n))
  }

  function SetPinFx(c: Config, s: State, now: nat, p: Phone, pin: string, payouts: seq<Outcome>): (State, Reply) {
    var t := s.WithUser(p);
    if t.users[p].name.None? then (t.PutPending(p, Some(AwaitingName)), NeedsName)
    else if Onboarded(t.users[p]) then (t, Noted)
    else CompletePinFx(c, t, now, p, pin, payouts)
  }

  function ChangePinFx(s: State, p: Phone, oldPin: string, newPin: string): (State, Reply) {
    var t := s.WithUser(p);
    if !PinMatches(t.users[p], oldPin) then (t, WrongPin)
    else (t.PutPin(p, newPin).ClearFails(p), Noted)
  }

  function RecoverFx(c: Config, s: State, now: nat, p: Phone, code: string): (State, Reply) {
    var t := s.WithUser(p);
    if t.users[p].pin.None? then (t, Noted)
    else (t.PutUser(p, t.users[p].(recovery := Some(Recovery(code, now + c.recoveryMs)))), Noted)
  }

  function RecoverConfirmFx(c: Config, s: State, now: nat, p: Phone, code: string, pin: string): (State, Reply) {
    var t := s.WithUser(p);
    var u := t.users[p];
    if u.recovery.None? then (t, Noted)
    else if u.recovery.value.expires < now then (t.PutUser(p, u.(recovery := None)), Noted)
    else if u.recovery.value.code != code then (t, Noted)
    else
      (t.PutUser(p, u.(pin := Some(pin), fails := 0, lockedUntil := None, recovery := None, riskUntil := Some(now + c.cooldownMs))), Noted)
  }

  // ----- settling a confirmed pending -----

  /** The answer to a key that was claimed before. */
  function Replay(row: IdemRow): Reply {
    match row
    case InFlight => InProgress
    case Completed(result) => result
  }

  function FinishFx(s: State, p: Phone, key: Key, result: Reply): (State, Reply) {
    (s.PutPending(p, None).(idem := s.idem[key := Completed(result)]), result)
  }

  /** `executeSend`. */
  function SendFx(c: Config, s: State, now: nat, p: Phone, m: Pending, o: Outcome): (State, Reply)
    requires m.PSend?
  {
    if m.key in s.idem then (s, Replay(s.idem[m.key]))
    else
      var s1 := s.(idem := s.idem[m.key := InFlight]);
      if m.pendingClaim && m.toPhone.Some? then
        var (s2, id) := Claims.Hold(c, s1, now, p, m.toPhone.value, m.amount, o);
        if id.None? then (s2, CouldNot) else FinishFx(s2, p, m.key, HeldFor(m.amount, id.value))
      else if m.toAddress.None? then (s1, CouldNot)
      else
        var (s2, ok) := s1.Transfer(p, m.toAddress.value, m.amount, o);
        if !ok then (s2, CouldNot)
        else
          var to := m.toPhone.Or(m.toAddress.value);
          var s3 := s2.AddRow(LedgerRow(p, Send, m.amount, Some(to), now));
          var s4 := if m.toPhone.Some? then s3.AddRow(LedgerRow(m.toPhone.value, Receive, m.amount, Some(p), now)) else s3;
          FinishFx(s4, p, m.key, Sent(m.amount, m.toPhone.Or(m.toLabel)))
  }

  /** `executeArcSwap`: the USDC side of a swap. */
  function SwapMove(s: State, p: Phone, m: Pending, o: Outcome, got: nat): (State, bool)
    requires m.PSwap?
  {
    if p !in s.users || m.tokenIn == m.tokenOut || (m.tokenIn == USDC && m.amount > s.Bal(p)) then (s, false)
    else
      var (t, ok) := if m.tokenIn == USDC then s.Transfer(p, POOL, m.amount, o) else (s, o.Landed?);
      (if m.tokenOut == USDC && !o.Threw? then t.Credit(WalletOf(p), got) else t, ok)
  }

  /** `executeSwap`. */
  function SwapFx(s: State, now: nat, p: Phone, m: Pending, o: Outcome, got: nat): (State, Reply)
    requires m.PSwap?
  {
    if m.key in s.idem then (s, Replay(s.idem[m.key]))
    else
      var s1 := s.(idem := s.idem[m.key := InFlight]);
      var (s2, ok) := SwapMove(s1, p, m, o, got);
      if !ok then (s2, CouldNot)
      else
        var row := LedgerRow(p, Swap, if m.tokenIn == USDC then m.amount else 0, None, now);
        FinishFx(s2.AddRow(row), p, m.key, Swapped(m.amount, got))
  }

  /** `fulfillAirtime`: debit to the sink, then the provider, then a refund if it failed. */
  function AirtimeMove(c: Config, s: State, p: Phone, charge: nat, env: Env): (State, bool) {
    var (t, ok) := s.WithUser(c.sink).Transfer(p, WalletOf(c.sink), charge, env.outcome);
    if !ok then (t, false)
    else if env.delivered then (t, true)
    else if p in t.users then (t.Transfer(c.sink, WalletOf(p), charge, env.refund).0, false)
    else (t, false)
  }

  /** `executeTopup`. */
  function TopupFx(c: Config, s: State, now: nat, p: Phone, m: Pending, env: Env): (State, Reply)
    requires m.PTopup?
  {
    if m.key in s.idem then (s, Replay(s.idem[m.key]))
    else
      var s1 := s.(idem := s.idem[m.key := InFlight]);
      var (s2, ok) := AirtimeMove(c, s1, p, m.charge, env);
      if !ok then (s2, CouldNot)
      else FinishFx(s2.AddRow(LedgerRow(p, Airtime, m.charge, Some(m.msisdn), now)), p, m.key, ToppedUp(m.charge))
  }

  /** A memo keeps its first 280 characters. */
  function CutMemo(memo: string): string {
    memo[..Min(280, |memo|)]
  }

  /** `attachSendMemo`: rewrites the pending send it read. */
  function MemoFx(s: State, p: Phone, memo: string): (State, Reply) {
    if p in s.sessions && s.sessions[p].PSend? then
      (s.PutPending(p, Some(s.sessions[p].(memo := CutMemo(memo)))), Noted)
    else (s, Noted)
  }

  // ----- confirming -----

  /** The PIN step shared by the send, swap and top-up branches: None lets the payment proceed. */
  function PinStep(c: Config, s: State, now: nat, p: Phone, pin: Option<string>): (State, Option<Reply>)
    requires p in s.users
  {
    var u := s.users[p];
    if !Onboarded(u) then (GreetFx(s, p).0, Some(GreetFx(s, p).1))
    else if PinLocked(u, now) then (s, Some(PinLockedOut))
    else if pin.None? then (s, Some(NeedsPin))
    else if !PinMatches(u, pin.value) then
      var t := s.FailPin(p, now, c.maxFails, c.lockMs);
      if PinLocked(t.users[p], now) then (t.PutPending(p, None), Some(PinJustLocked))
      else (t, Some(WrongPin))
    else (s.ClearFails(p), None)
  }

  /** Confirming drafted rules. */
  function ConfirmRulesFx(c: Config, s: State, now: nat, p: Phone, draft: seq<FrozenRule>, pin: Option<string>): (State, Reply)
    requires p in s.users
  {
    var u := s.users[p];
    if !Onboarded(u) then GreetFx(s, p)
    else if PinLocked(u, now) then (s, PinLockedOut)
    else if pin.None? then (s, NeedsPin)
    else if !PinMatches(u, pin.value) then (s.FailPin(p, now, c.maxFails, c.lockMs), WrongPin)
    else
      var t := s.ClearFails(p);
      (t.(rules := FreezeRows(RevokeRows(t.rules, p), p, draft)).PutPending(p, None), RulesFrozen(draft))
  }

  /** Confirming a standing order; this branch does not look at the PIN lock. */
  function ConfirmOrderFx(c: Config, s: State, now: nat, p: Phone, m: Pending, pin: Option<string>): (State, Reply)
    requires p in s.users && m.PStanding?
  {
    if pin.None? then (s, NeedsPin)
    else if !PinMatches(s.users[p], pin.value) then (s.FailPin(p, now, c.maxFails, c.lockMs), WrongPin)
    else
      var t := s.ClearFails(p);
      var next := if m.cadence == Monthly then FirstOfNextMonth(now) else NextStandingRun(Weekly, now);
      (t.(orders := t.orders + [StandingOrder(p, m.amount, m.toLabel, m.toPhone, m.toAddress, m.cadence, next, true)]).PutPending(p, None),
       OrderOpened(|t.orders|))
  }

  /** Confirming a savings lock; this branch does not look at the PIN lock either. */
  function ConfirmLockFx(c: Config, s: State, now: nat, p: Phone, m: Pending, pin: Option<string>): (State, Reply)
    requires p in s.users && m.PLock?
  {
    if pin.None? then (s, NeedsPin)
    else if !PinMatches(s.users[p], pin.value) then (s.FailPin(p, now, c.maxFails, c.lockMs), WrongPin)
    else
      var t := s.ClearFails(p);
      var u := t.(locks := t.locks + [LockRow(p, m.amount, m.unlockAt, true)]).PutPending(p, None);
      (u.AddRow(LedgerRow(p, SavingsLock, m.amount, None, now)), LockOpened(|t.locks|))
  }

  /** The pending payment after its PIN step. */
  function PayFx(c: Config, s: State, now: nat, p: Phone, m: Pending, env: Env): (State, Reply)
    requires m.PSend? || m.PSwap? || m.PTopup?
  {
    match m
    case PSend(_, _, _, _, _, _, _) => SendFx(c, s, now, p, m, env.outcome)
    case PSwap(_, _, _, _) => SwapFx(s, now, p, m, env.outcome, env.got)
    case PTopup(_, _, _) => TopupFx(c, s, now, p, m, env)
  }

  function ConfirmPaymentFx(c: Config, s: State, now: nat, p: Phone, m: Pending, pin: Option<string>, env: Env): (State, Reply)
    requires p in s.users && (m.PSend? || m.PSwap? || m.PTopup?)
  {
    var (t, stop) := PinStep(c, s, now, p, pin);
    if stop.Some? then (t, stop.value) else PayFx(c, t, now, p, m, env)
  }

  /** The confirm branch.  A PIN said with the word policy only counts for drafted rules. */
  function ConfirmFx(c: Config, s0: State, now: nat, p: Phone, pin: Option<string>, policyWord: bool, env: Env): (State, Reply) {
    var s := s0.WithUser(p);
    var payPin := if policyWord then None else pin;
    if p !in s.sessions then (s, NothingPending)
    else
      match s.sessions[p]
      case PPolicy(draft) => ConfirmRulesFx(c, s, now, p, draft, pin)
      case PStanding(_, _, _, _, _) => ConfirmOrderFx(c, s, now, p, s.sessions[p], payPin)
      case PLock(_, _) => ConfirmLockFx(c, s, now, p, s.sessions[p], payPin)
      case PSend(_, _, _, _, _, _, _) => ConfirmPaymentFx(c, s, now, p, s.sessions[p], payPin, env)
      case PSwap(_, _, _, _) => ConfirmPaymentFx(c, s, now, p, s.sessions[p], payPin, env)
      case PTopup(_, _, _) => ConfirmPaymentFx(c, s, now, p, s.sessions[p], payPin, env)
      case AwaitingName => (s, NothingPending)
      case PShop => (s, NothingPending)
  }

  // ----- requests of an onboarded caller -----

  /** A send request: resolve the payee, pass the gate, open the pending slot. */
  function RequestSendFx(c: Config, s: State, now: nat, p: Phone, amount: nat, to: string, memo: string): (State, Reply)
    requires |c.tiers| == 3
  {
    match Resolve(c, s, p, to)
    case None => (s, UnknownPayee)
    case Some(q) =>
      var (v, t) := SendGate(c, s, now, p, amount, q.title, q.phone);
      if v == Reject then (t, Refused)
      else if v == Callback then (t, NeedsCallback)
      else
        var m := PSend(amount, q.title, q.address, q.phone, q.pendingClaim, t.nextKey, memo);
        (t.(nextKey := t.nextKey + 1).PutPending(p, Some(m)), NeedsPin)
  }

  function RequestSwapFx(c: Config, s: State, now: nat, p: Phone, amount: nat, tokenIn: Token, tokenOut: Token): (State, Reply)
    requires |c.tiers| == 3
  {
    var (v, t) := SwapGate(c, s, now, p, amount, tokenIn, tokenOut);
    if v == Reject then (t, Refused)
    else (t.(nextKey := t.nextKey + 1).PutPending(p, Some(PSwap(amount, tokenIn, tokenOut, t.nextKey))), NeedsPin)
  }

  function RequestTopupFx(c: Config, s: State, now: nat, p: Phone, face: nat, euro: bool, to: Option<string>): (State, Reply)
    requires |c.tiers| == 3
  {
    var charge := AirtimeCharge(c, face, euro);
    var (v, t) := TopupGate(c, s, now, p, charge);
    if v == Reject then (t, Refused)
    else
      var msisdn := if to.Some? then NormalizePhone(to.value) else p;
      (t.(nextKey := t.nextKey + 1).PutPending(p, Some(PTopup(charge, msisdn, t.nextKey))), NeedsPin)
  }

  function RequestLockFx(s: State, now: nat, p: Phone, amount: nat, until: Option<nat>): (State, Reply) {
    if until.None? then (s, Noted)
    else
      var t := s.ReleaseMatured(p, now);
      if amount > s.Available(p, now) then (t, Refused)
      else (t.PutPending(p, Some(PLock(amount, until.value))), NeedsPin)
  }

  function SaveContactFx(c: Config, s: State, p: Phone, contact: string, target: string): (State, Reply) {
    var k := (p, Lower(contact));
    var was := if k in s.contacts then s.contacts[k] else Contact(None, None);
    if c.isAddress(target) then (s.(contacts := s.contacts[k := was.(address := Some(target))]), Noted)
    else if StartsWith(target, "+") || (target != "" && forall i | 0 <= i < |target| :: IsDigit(target[i])) then
      (s.(contacts := s.contacts[k := was.(phone := Some(NormalizePhone(target)))]), Noted)
    else (s, Noted)
  }

  function CancelOrderFx(s: State, p: Phone, id: nat): State {
    if id < |s.orders| && s.orders[id].phone == p && s.orders[id].active then
      s.(orders := s.orders[id := s.orders[id].(active := false)])
    else s
  }

  function PutTier(s: State, p: Phone, tier: TierLevel): State
    requires p in s.users
  {
    s.PutUser(p, s.users[p].(tier := tier))
  }

  /** `verifyNationalId` keeps a higher tier; a successful `attestSim` is the top tier. */
  function IdentityFx(s: State, p: Phone, accepted: bool, sim: bool): State
    requires p in s.users
  {
    if !accepted then s else if sim then PutTier(s, p, 2) else PutTier(s, p, Max(s.users[p].tier, 1))
  }

  function PriceFx(c: Config, s: State, now: nat, p: Phone, got: nat): (State, Reply)
    requires |c.tiers| == 3
  {
    if PriceGate(c, s, now, p) == Reject then (s, Refused)
    else (s.AddRow(LedgerRow(p, Nanopay, got, None, now)), Noted)
  }

  /** The requests that open the pending slot for money. */
  function ServeMoneyFx(c: Config, s: State, now: nat, p: Phone, intent: Intent): (State, Reply)
    requires |c.tiers| == 3 && p in s.users
  {
    match intent
    case SendTo(amount, to, memo) => RequestSendFx(c, s, now, p, amount, to, memo)
    case SwapFor(amount, tokenIn, tokenOut) => RequestSwapFx(c, s, now, p, amount, tokenIn, tokenOut)
    case Topup(face, euro, to) => RequestTopupFx(c, s, now, p, face, euro, to)
    case LockSavings(amount, until) => RequestLockFx(s, now, p, amount, until)
    case _ => (s, Noted)
  }

  function RequestOrderFx(c: Config, s: State, p: Phone, amount: nat, to: string, cadence: Cadence): (State, Reply) {
    match Resolve(c, s, p, to)
    case None => (s, UnknownPayee)
    case Some(q) => (s.PutPending(p, Some(PStanding(amount, q.title, q.phone, q.address, cadence))), NeedsPin)
  }

  /** Rules, standing orders and the shop. */
  function ServeOrdersFx(c: Config, s: State, p: Phone, intent: Intent): (State, Reply) {
    if intent.SetPolicy? then
      if intent.draft == [] then (s, Noted) else (s.PutPending(p, Some(PPolicy(intent.draft))), NeedsPin)
    else if intent.ClearPolicy? then (s.(rules := RevokeRows(s.rules, p)), Noted)
    else if intent.Standing? then RequestOrderFx(c, s, p, intent.amount, intent.to, intent.cadence)
    else if intent.CancelStanding? then (CancelOrderFx(s, p, intent.id), Noted)
    else if intent.Shop? && intent.found then (s.PutPending(p, Some(PShop)), Noted)
    else if intent.Buy? && intent.found then (s.PutPending(p, None), Noted)
    else (s, Noted)
  }

  /** Name, identity, contacts, balance and paid price lookups. */
  function ServeProfileFx(c: Config, s: State, now: nat, p: Phone, intent: Intent, got: nat): (State, Reply)
    requires |c.tiers| == 3 && p in s.users
  {
    if intent.ClaimName? then (Names.Claim(s, p, intent.raw).Or(s), Noted)
    else if intent.VerifyId? then (IdentityFx(s, p, intent.wellFormed, false), Noted)
    else if intent.AttestSim? then (IdentityFx(s, p, intent.accepted, true), Noted)
    else if intent.Balance? then (s.ReleaseMatured(p, now), Noted)
    else if intent.Save? then SaveContactFx(c, s, p, intent.contact, intent.target)
    else if intent.Price? then PriceFx(c, s, now, p, got)
    else (s, Noted)
  }

  predicate IsOrdersIntent(intent: Intent) {
    intent.SetPolicy? || intent.ClearPolicy? || intent.Standing? || intent.CancelStanding? || intent.Shop? || intent.Buy?
  }

  predicate AsksForMoney(intent: Intent) {
    intent.SendTo? || intent.SwapFor? || intent.Topup? || intent.LockSavings?
  }

  /** The lower half of `dispatch`: what only an onboarded caller can ask. */
  function ServeFx(c: Config, s: State, now: nat, p: Phone, intent: Intent, env: Env): (State, Reply)
    requires |c.tiers| == 3 && p in s.users
  {
    if AsksForMoney(intent) then ServeMoneyFx(c, s, now, p, intent)
    else if IsOrdersIntent(intent) then ServeOrdersFx(c, s, p, intent)
    else ServeProfileFx(c, s, now, p, intent, env.got)
  }

  // ----- dispatch -----

  /** `expandBarePin`: bare digits are a PIN for whatever is pending, or for setup. */
  function ExpandDigits(s: State, p: Phone, intent: Intent): Intent {
    if !intent.Digits? then intent
    else if p in s.sessions then
      if s.sessions[p] != AwaitingName then ConfirmWith(Some(intent.digits)) else Other
    else if p in s.users && !Onboarded(s.users[p]) then SetPinTo(intent.digits)
    else Other
  }

  /** A caller who still owes a name: the answer is the name, or the question again. */
  function NameAnswerFx(s: State, p: Phone, m: Message): (State, Reply) {
    if m.intent.SetName? then FinishNamingFx(s, p, m.intent.name)
    else if m.bareName.Some? then FinishNamingFx(s, p, m.bareName.value)
    else (s, NeedsName)
  }

  function RiskFx(c: Config, s: State, now: nat, p: Phone): (State, Reply) {
    var t := s.WithUser(p);
    (t.PutUser(p, t.users[p].(riskUntil := Some(now + c.cooldownMs))), Noted)
  }

  function CallbackFx(c: Config, s: State, now: nat, p: Phone): (State, Reply) {
    var t := s.WithUser(p);
    (t.PutUser(p, t.users[p].(callbackUntil := Some(now + c.callbackMs))), Noted)
  }

  function JoinFx(s: State, p: Phone, name: Option<string>): (State, Reply) {
    if name.Some? then FinishNamingFx(s, p, name.value) else GreetFx(s.WithUser(p), p)
  }

  /** `handleMissedCall`: a balance text for an onboarded number. */
  function FlashFx(s: State, now: nat, p: Phone): State {
    if p in s.users && Onboarded(s.users[p]) then s.ReleaseMatured(p, now) else s
  }

  /** The onboarding gate in front of everything else. */
  function GateFx(c: Config, s: State, now: nat, p: Phone, intent: Intent, env: Env): (State, Reply)
    requires |c.tiers| == 3
  {
    var t := s.WithUser(p);
    if !Onboarded(t.users[p]) then GreetFx(t, p) else ServeFx(c, t, now, p, intent, env)
  }

  predicate IsAccountIntent(intent: Intent) {
    intent.SetName? || intent.Hello? || intent.SetPinTo? || intent.ChangePin? || intent.RecoverPin?
    || intent.RecoverConfirm? || intent.ReportSim? || intent.CallbackVerify? || intent.Join?
  }

  /** Naming, PIN and security messages, open to callers who are not set up yet. */
  function AccountFx(c: Config, s: State, now: nat, p: Phone, intent: Intent, env: Env): (State, Reply)
    requires IsAccountIntent(intent)
  {
    if intent.SetName? then FinishNamingFx(s, p, intent.name)
    else if intent.Hello? then JoinFx(s, p, None)
    else if intent.SetPinTo? then SetPinFx(c, s, now, p, intent.newPin, env.payouts)
    else if intent.ChangePin? then ChangePinFx(s, p, intent.oldPin, intent.newPin)
    else if intent.RecoverPin? then RecoverFx(c, s, now, p, env.code)
    else if intent.RecoverConfirm? then RecoverConfirmFx(c, s, now, p, intent.code, intent.newPin)
    else if intent.ReportSim? then RiskFx(c, s, now, p)
    else if intent.CallbackVerify? then CallbackFx(c, s, now, p)
    else JoinFx(s, p, intent.withName)
  }

  /** `dispatch`.  The source tries its branches in one list; the intents of the branches are
      disjoint, so the grouping here changes no outcome. */
  function DispatchFx(c: Config, s: State, now: nat, p: Phone, m: Message): (State, Reply)
    requires |c.tiers| == 3
  {
    if p in s.sessions && s.sessions[p] == AwaitingName then NameAnswerFx(s, p, m)
    else if IsAccountIntent(m.intent) then AccountFx(c, s, now, p, m.intent, m.env)
    else if m.intent.Rate? then (s.AddRow(LedgerRow(p, Nanopay, m.env.got, None, now)), Noted)
    else if m.intent.Cancel? then (s.PutPending(p, None), Cancelled)
    else if m.intent.ConfirmWith? then ConfirmFx(c, s, now, p, m.intent.pin, false, m.env)
    else if m.intent.ConfirmPolicy? then ConfirmFx(c, s, now, p, m.intent.pin, true, m.env)
    else GateFx(c, s, now, p, m.intent, m.env)
  }

  /** `handleMessage`: the account key, then dispatch; chat accounts own no money. */
  function HandleFx(c: Config, s: State, now: nat, raw: string, m: Message): (State, Reply)
    requires |c.tiers| == 3
  {
    var p := NormalizePhone(raw);
    if IsTelegram(p) then (s, Noted) else DispatchFx(c, s, now, p, m.(intent := ExpandDigits(s, p, m.intent)))
  }
}
