/** The concrete handlers fall into the cases of module Effects: for every state, input and phone. */
module Steps {
  import opened Text
  import opened Tables
  import opened Settings
  import opened Policy
  import opened Payees
  import opened Pipeline
  import opened Frames
  import opened Runs
  import opened Effects
  import Channels
  import Claims

  /** A request is refused tidily or opens an order the gate accepted. */
  ghost predicate TidyOrOpens(c: Config, s: State, t: State, now: nat, q: Phone, intent: Intent)
    requires |c.tiers| == 3
  {
    Tidy(s, t, now, q) || Opens(c, s, t, now, q, intent)
  }

  lemma SendGateCases(c: Config, s: State, now: nat, q: Phone, amount: nat, payee: string, phone: Option<Phone>)
    requires |c.tiers| == 3
    ensures var (v, t) := SendGate(c, s, now, q, amount, payee, phone);
            v != Pass && (t == s || t == s.ReleaseMatured(q, now)) && Tidy(s, t, now, q)
  {
    hide RulesAccept, SumKind, SumLocked, ReleaseRows, Tidy;
    IdleIsTidy(s, now, q);
    ReleaseIsTidy(s, now, q);
  }

  lemma SwapGateCases(c: Config, s: State, now: nat, q: Phone, amount: nat, tokenIn: Token, tokenOut: Token)
    requires |c.tiers| == 3
    ensures var (v, t) := SwapGate(c, s, now, q, amount, tokenIn, tokenOut);
            (v == Confirm || v == Reject) && (t == s || t == s.ReleaseMatured(q, now)) && Tidy(s, t, now, q)
  {
    hide SumKind, SumLocked, ReleaseRows, Tidy;
    IdleIsTidy(s, now, q);
    ReleaseIsTidy(s, now, q);
  }

  lemma SendRequest(c: Config, s: State, now: nat, q: Phone, intent: Intent)
    requires |c.tiers| == 3 && q in s.users && Onboarded(s.users[q]) && intent.SendTo?
    ensures TidyOrOpens(c, s, RequestSendFx(c, s, now, q, intent.amount, intent.to, intent.memo).0, now, q, intent)
  {
    hide Resolve, SendGate, ReleaseRows, Tidy;
    IdleIsTidy(s, now, q);
    var found := Resolve(c, s, q, intent.to);
    if found.Some? {
      SendGateCases(c, s, now, q, intent.amount, found.value.title, found.value.phone);
    }
  }

  lemma SwapRequest(c: Config, s: State, now: nat, q: Phone, intent: Intent)
    requires |c.tiers| == 3 && q in s.users && Onboarded(s.users[q]) && intent.SwapFor?
    ensures TidyOrOpens(c, s, RequestSwapFx(c, s, now, q, intent.amount, intent.tokenIn, intent.tokenOut).0, now, q, intent)
  {
    hide SwapGate, ReleaseRows, Tidy;
    SwapGateCases(c, s, now, q, intent.amount, intent.tokenIn, intent.tokenOut);
  }

  lemma TopupGateCases(c: Config, s: State, now: nat, q: Phone, charge: nat)
    requires |c.tiers| == 3
    ensures TopupGate(c, s, now, q, charge).1 == s || TopupGate(c, s, now, q, charge).1 == s.ReleaseMatured(q, now)
    ensures Tidy(s, TopupGate(c, s, now, q, charge).1, now, q)
  {
    IdleIsTidy(s, now, q);
    ReleaseIsTidy(s, now, q);
  }

  lemma TopupRequest(c: Config, s: State, now: nat, q: Phone, intent: Intent)
    requires |c.tiers| == 3 && q in s.users && Onboarded(s.users[q]) && intent.Topup?
    ensures TidyOrOpens(c, s, RequestTopupFx(c, s, now, q, intent.face, intent.euro, intent.forPhone).0, now, q, intent)
  {
    hide SumKind, SumLocked, ActiveRules, SumTo, RulesAccept, ReleaseRows, AirtimeCharge, Tidy;
    var charge := AirtimeCharge(c, intent.face, intent.euro);
    TopupGateCases(c, s, now, q, charge);
    var (v, t) := TopupGate(c, s, now, q, charge);
    var u := RequestTopupFx(c, s, now, q, intent.face, intent.euro, intent.forPhone).0;
    if v == Reject {
      assert u == t;
    } else {
      assert v == Confirm;
      assert Opens(c, s, u, now, q, intent);
    }
  }

  lemma LockRequest(c: Config, s: State, now: nat, q: Phone, intent: Intent)
    requires |c.tiers| == 3 && q in s.users && Onboarded(s.users[q]) && intent.LockSavings?
    ensures TidyOrOpens(c, s, RequestLockFx(s, now, q, intent.amount, intent.until).0, now, q, intent)
  {
    IdleIsTidy(s, now, q);
    ReleaseIsTidy(s, now, q);
  }

  lemma MoneyRequest(c: Config, s: State, now: nat, q: Phone, intent: Intent)
    requires |c.tiers| == 3 && q in s.users && Onboarded(s.users[q]) && AsksForMoney(intent)
    ensures TidyOrOpens(c, s, ServeMoneyFx(c, s, now, q, intent).0, now, q, intent)
  {
    hide RequestSendFx, RequestSwapFx, RequestTopupFx, RequestLockFx, Opens, Tidy;
    if intent.SendTo? {
      SendRequest(c, s, now, q, intent);
    } else if intent.SwapFor? {
      SwapRequest(c, s, now, q, intent);
    } else if intent.Topup? {
      TopupRequest(c, s, now, q, intent);
    } else {
      LockRequest(c, s, now, q, intent);
    }
  }

  lemma OpeningIsHarmlessToOthers(c: Config, s: State, t: State, now: nat, q: Phone, intent: Intent, p: Phone)
    requires |c.tiers| == 3 && Opens(c, s, t, now, q, intent) && p != q
    ensures Harmless(s, t, now, p)
  {
    forall u: nat | u >= now
      ensures t.Locked(p, u) == s.Locked(p, u)
    {
      ReleaseKeepsOthers(s.locks, q, now, p, u);
    }
  }

  lemma GateCases(c: Config, s: State, now: nat, q: Phone, intent: Intent, env: Env)
    requires |c.tiers| == 3
    ensures TidyOrOpens(c, s, GateFx(c, s, now, q, intent, env).0, now, q, intent)
  {
    var t := s.WithUser(q);
    if !Onboarded(t.users[q]) {
      KnowingIsTidy(s, now, q);
      GreetIsTidy(t, now, q);
      TidyChain(s, t, GreetFx(t, q).0, now, q);
    } else {
      assert t == s;
      if AsksForMoney(intent) {
        MoneyRequest(c, s, now, q, intent);
      } else if IsOrdersIntent(intent) {
        OrdersAreTidy(c, s, now, q, intent);
      } else {
        ProfileIsTidy(c, s, now, q, intent, env.got);
      }
    }
  }

  // ----- confirming -----

  lemma ConfirmRulesCases(c: Config, s: State, now: nat, q: Phone, pin: Option<string>)
    requires q in s.users && q in s.sessions && s.sessions[q].PPolicy?
    ensures var t := ConfirmRulesFx(c, s, now, q, s.sessions[q].rules, pin).0;
            Tidy(s, t, now, q) || Freezes(s, t, now, q, pin)
  {
    if Unlocks(s, now, q, pin) {
    } else if !Onboarded(s.users[q]) {
      GreetIsTidy(s, now, q);
    } else if PinLocked(s.users[q], now) || pin.None? {
      IdleIsTidy(s, now, q);
    } else {
      FailIsTidy(c, s, now, q);
    }
  }

  /** A confirmed policy: with the right PIN and no lock, the rules in force for the caller are exactly
      the drafted ones, in their order, and nobody else's rules change; otherwise no rule changes. */
  lemma ConfirmedRulesAreTheDraft(c: Config, s: State, now: nat, q: Phone, draft: seq<FrozenRule>, pin: Option<string>, p: Phone)
    requires q in s.users
    ensures ConfirmRulesFx(c, s, now, q, draft, pin).0.Rules(p)
         == if p == q && Unlocks(s, now, q, pin) then draft else s.Rules(p)
  {
    hide ActiveRules, FreezeRows, RevokeRows;
    ReplacedRulesAreTheDraft(s.rules, q, draft, p);
  }

  lemma OrderRowsAreTidy(s: State, now: nat, q: Phone, orders: seq<StandingOrder>)
    requires q in s.users
    ensures Tidy(s, s.ClearFails(q).(orders := orders).PutPending(q, None), now, q)
  {
    UserUpdateIsTidy(s, now, q, s.ClearFails(q).users[q]);
    SlotIsTidy(s.ClearFails(q), now, q, None);
    TidyChain(s, s.ClearFails(q), s.ClearFails(q).PutPending(q, None), now, q);
  }

  lemma ConfirmOrderIsTidy(c: Config, s: State, now: nat, q: Phone, pin: Option<string>)
    requires q in s.users && q in s.sessions && s.sessions[q].PStanding?
    ensures Tidy(s, ConfirmOrderFx(c, s, now, q, s.sessions[q], pin).0, now, q)
  {
    var t := ConfirmOrderFx(c, s, now, q, s.sessions[q], pin).0;
    if pin.None? {
      IdleIsTidy(s, now, q);
    } else if !PinMatches(s.users[q], pin.value) {
      FailIsTidy(c, s, now, q);
    } else {
      assert t == s.ClearFails(q).(orders := t.orders).PutPending(q, None);
      OrderRowsAreTidy(s, now, q, t.orders);
    }
  }

  lemma ConfirmLockCases(c: Config, s: State, now: nat, q: Phone, pin: Option<string>)
    requires q in s.users && q in s.sessions && s.sessions[q].PLock?
    ensures var t := ConfirmLockFx(c, s, now, q, s.sessions[q], pin).0;
            Tidy(s, t, now, q) || Locks(s, t, now, q)
  {
    if pin.None? {
      IdleIsTidy(s, now, q);
    } else if !PinMatches(s.users[q], pin.value) {
      FailIsTidy(c, s, now, q);
    }
  }

  lemma RetryChangesNothing(c: Config, s: State, now: nat, q: Phone, m: Pending, env: Env)
    requires Money(m) && KeyOf(m) in s.idem
    ensures PayFx(c, s, now, q, m, env).0 == s
  {
  }

  lemma ConfirmPaymentCases(c: Config, s: State, now: nat, q: Phone, pin: Option<string>, env: Env)
    requires q in s.users && q in s.sessions && Money(s.sessions[q])
    ensures var t := ConfirmPaymentFx(c, s, now, q, s.sessions[q], pin, env).0;
            Tidy(s, t, now, q) || Pays(c, s, t, now, q, pin, env)
  {
    PinStepIsTidy(c, s, now, q, pin);
    if PinStep(c, s, now, q, pin).1.None? && KeyOf(s.sessions[q]) in s.idem {
      RetryChangesNothing(c, s.ClearFails(q), now, q, s.sessions[q], env);
    }
  }

  /** What a confirmation can do to the tables. */
  ghost predicate Settles(c: Config, s: State, t: State, now: nat, q: Phone, pin: Option<string>, payPin: Option<string>, env: Env) {
    || Tidy(s, t, now, q)
    || Freezes(s, t, now, q, pin)
    || Locks(s, t, now, q)
    || Pays(c, s, t, now, q, payPin, env)
  }

  lemma ConfirmCases(c: Config, s: State, now: nat, q: Phone, pin: Option<string>, policyWord: bool, env: Env)
    requires q in s.users
    ensures Settles(c, s, ConfirmFx(c, s, now, q, pin, policyWord, env).0, now, q, pin, if policyWord then None else pin, env)
  {
    var payPin := if policyWord then None else pin;
    assert s.WithUser(q) == s;
    if q !in s.sessions || s.sessions[q].AwaitingName? || s.sessions[q].PShop? {
      IdleIsTidy(s, now, q);
    } else if s.sessions[q].PPolicy? {
      ConfirmRulesCases(c, s, now, q, pin);
    } else if s.sessions[q].PStanding? {
      ConfirmOrderIsTidy(c, s, now, q, payPin);
    } else if s.sessions[q].PLock? {
      ConfirmLockCases(c, s, now, q, payPin);
    } else {
      ConfirmPaymentCases(c, s, now, q, payPin, env);
    }
  }

  /** Known callers only: whoever has a pending payment order has finished setup. */
  ghost predicate Rooted(c: Config, s: State) {
    forall p | c.Ordinary(p) && p in s.sessions && Guarded(s.sessions[p]) :: p in s.users && Onboarded(s.users[p])
  }

  /** A caller without a user row who confirms: nothing of weight is pending. */
  lemma StrangerConfirms(c: Config, s: State, now: nat, q: Phone, pin: Option<string>, policyWord: bool, env: Env)
    requires q !in s.users && c.Ordinary(q) && Rooted(c, s)
    ensures Tidy(s, ConfirmFx(c, s, now, q, pin, policyWord, env).0, now, q)
  {
    var t := s.WithUser(q);
    KnowingIsTidy(s, now, q);
    ConfirmCases(c, t, now, q, pin, policyWord, env);
    var u := ConfirmFx(c, t, now, q, pin, policyWord, env).0;
    assert ConfirmFx(c, s, now, q, pin, policyWord, env).0 == u;
    TidyChain(s, t, u, now, q);
  }

  lemma FreezingIsHarmlessToOthers(s: State, t: State, now: nat, q: Phone, pin: Option<string>, p: Phone)
    requires Freezes(s, t, now, q, pin) && p != q
    ensures Harmless(s, t, now, p)
  {
    ReplacedRulesAreTheDraft(s.rules, q, s.sessions[q].rules, p);
  }

  lemma LockingIsHarmlessToOthers(s: State, t: State, now: nat, q: Phone, p: Phone)
    requires Locks(s, t, now, q) && p != q
    ensures Harmless(s, t, now, p)
  {
    forall u: nat | u >= now
      ensures t.Locked(p, u) == s.Locked(p, u)
    {
      assert t.locks[..|t.locks| - 1] == s.locks;
    }
  }

  lemma PayingIsHarmlessToOthers(c: Config, s: State, t: State, now: nat, q: Phone, pin: Option<string>, env: Env, p: Phone)
    requires Pays(c, s, t, now, q, pin, env) && p != q && c.Ordinary(p)
    ensures Harmless(s, t, now, p)
  {
    UserUpdateIsTidy(s, now, q, s.ClearFails(q).users[q]);
    TidyIsHarmless(s, s.ClearFails(q), now, q, p);
    PaymentIsHarmlessToOthers(c, s.ClearFails(q), now, q, s.sessions[q], env, p);
    HarmlessChain(s, s.ClearFails(q), t, now, p);
  }

  // ----- setting a PIN -----

  lemma SetPinIsHarmless(c: Config, s: State, now: nat, q: Phone, pin: string, payouts: seq<Outcome>, p: Phone)
    requires c.Ordinary(p)
    ensures Harmless(s, SetPinFx(c, s, now, q, pin, payouts).0, now, p)
  {
    var t := s.WithUser(q);
    if t.users[q].name.None? || t.users[q].pin.Some? {
      NoPinYetIsTidy(c, s, now, q, pin, payouts);
      TidyIsHarmless(s, SetPinFx(c, s, now, q, pin, payouts).0, now, q, p);
    } else {
      var v := t.users[q].(pin := Some(pin), fails := 0, lockedUntil := None);
      OwnRowIsTidy(s, now, q, v);
      TidyIsHarmless(s, t.PutUser(q, v), now, q, p);
      SlotIsTidy(t.PutUser(q, v), now, q, None);
      var u := t.PutUser(q, v).PutPending(q, None);
      TidyIsHarmless(t.PutUser(q, v), u, now, q, p);
      HarmlessChain(s, t.PutUser(q, v), u, now, p);
      FulfilIsHarmless(c, u, now, q, payouts, p);
      assert u == t.WithUser(q).PutPin(q, pin).PutPending(q, None);
      HarmlessChain(s, u, Claims.Fulfil(c, u, now, q, payouts).0, now, p);
    }
  }

  // ----- every step -----

  lemma NamingCases(s: State, now: nat, q: Phone, m: Message)
    ensures Tidy(s, NameAnswerFx(s, q, m).0, now, q)
  {
    if m.intent.SetName? {
      FinishNamingIsTidy(s, now, q, m.intent.name);
    } else if m.bareName.Some? {
      FinishNamingIsTidy(s, now, q, m.bareName.value);
    } else {
      IdleIsTidy(s, now, q);
    }
  }

  /** The message completes set-up: the caller had a name and gives its first PIN. */
  ghost predicate Completes(c: Config, s: State, t: State, now: nat, q: Phone, intent: Intent, env: Env) {
    && intent.SetPinTo?
    && (var u := s.WithUser(q).users[q]; u.name.Some? && u.pin.None?)
    && t == SetPinFx(c, s, now, q, intent.newPin, env.payouts).0
  }

  /** What handling one message of q does: it is tidy, or exactly one of five things of weight. */
  ghost predicate MessageKind(c: Config, s: State, t: State, now: nat, q: Phone, m: Message)
    requires |c.tiers| == 3
  {
    || Tidy(s, t, now, q)
    || Opens(c, s, t, now, q, m.intent)
    || Pays(c, s, t, now, q, if m.intent.ConfirmWith? then m.intent.pin else None, m.env)
    || Locks(s, t, now, q)
    || (exists pin :: Freezes(s, t, now, q, pin))
    || Completes(c, s, t, now, q, m.intent, m.env)
  }

  lemma ConfirmationKind(c: Config, s: State, now: nat, q: Phone, m: Message, pin: Option<string>, policyWord: bool)
    requires |c.tiers| == 3 && c.Ordinary(q) && Rooted(c, s)
    requires if policyWord then m.intent.ConfirmPolicy? else m.intent.ConfirmWith? && m.intent.pin == pin
    ensures MessageKind(c, s, ConfirmFx(c, s, now, q, pin, policyWord, m.env).0, now, q, m)
  {
    if q in s.users {
      ConfirmCases(c, s, now, q, pin, policyWord, m.env);
    } else {
      StrangerConfirms(c, s, now, q, pin, policyWord, m.env);
    }
  }

  lemma DispatchKind(c: Config, s: State, now: nat, q: Phone, m: Message)
    requires |c.tiers| == 3 && c.Ordinary(q) && Rooted(c, s)
    ensures MessageKind(c, s, DispatchFx(c, s, now, q, m).0, now, q, m)
  {
    if q in s.sessions && s.sessions[q] == AwaitingName {
      NamingCases(s, now, q, m);
    } else if IsAccountIntent(m.intent) {
      var u := s.WithUser(q).users[q];
      if !m.intent.SetPinTo? || u.name.None? || u.pin.Some? {
        AccountIsTidy(c, s, now, q, m.intent, m.env);
      }
    } else if m.intent.Rate? {
      NeutralRowIsTidy(s, now, q, LedgerRow(q, Nanopay, m.env.got, None, now));
    } else if m.intent.Cancel? {
      SlotIsTidy(s, now, q, None);
    } else if m.intent.ConfirmWith? {
      ConfirmationKind(c, s, now, q, m, m.intent.pin, false);
    } else if m.intent.ConfirmPolicy? {
      ConfirmationKind(c, s, now, q, m, m.intent.pin, true);
    } else {
      GateCases(c, s, now, q, m.intent, m.env);
    }
  }

  /** No money and no claim moves, only q's own row can change, and only neutral rows of q are booked. */
  ghost predicate Light(s: State, t: State, q: Phone) {
    && t.balance == s.balance && t.claims == s.claims && s.users.Keys <= t.users.Keys
    && (forall p | p != q :: (p in t.users <==> p in s.users) && (p in s.users ==> t.users[p] == s.users[p]))
    && (q in s.users ==> t.users[q].tier >= s.users[q].tier)
    && s.ledger <= t.ledger
    && forall k | |s.ledger| <= k < |t.ledger| :: t.ledger[k].phone == q && Neutral(t.ledger[k].kind)
  }

  lemma TidyIsLight(s: State, t: State, now: nat, q: Phone)
    requires Tidy(s, t, now, q)
    ensures Light(s, t, q)
  {
    hide ActiveRules, SumLocked;
  }

  lemma OpeningIsLight(c: Config, s: State, t: State, now: nat, q: Phone, intent: Intent)
    requires |c.tiers| == 3 && Opens(c, s, t, now, q, intent)
    ensures Light(s, t, q)
  {
    hide Accepted, ReleaseRows;
  }

  lemma LockingIsLight(s: State, t: State, now: nat, q: Phone)
    requires Locks(s, t, now, q)
    ensures Light(s, t, q)
  {
  }

  lemma FreezingIsLight(s: State, t: State, now: nat, q: Phone, pin: Option<string>)
    requires Freezes(s, t, now, q, pin)
    ensures Light(s, t, q)
  {
    hide FreezeRows, RevokeRows;
  }

  /** Every message that neither completes set-up nor pays is light. */
  lemma MessageIsLight(c: Config, s: State, t: State, now: nat, q: Phone, m: Message)
    requires |c.tiers| == 3 && MessageKind(c, s, t, now, q, m)
    ensures || Light(s, t, q)
            || Completes(c, s, t, now, q, m.intent, m.env)
            || Pays(c, s, t, now, q, if m.intent.ConfirmWith? then m.intent.pin else None, m.env)
  {
    hide Tidy, Opens, Locks, Freezes, Light, Completes, Pays;
    if Tidy(s, t, now, q) {
      TidyIsLight(s, t, now, q);
    } else if Opens(c, s, t, now, q, m.intent) {
      OpeningIsLight(c, s, t, now, q, m.intent);
    } else if Locks(s, t, now, q) {
      LockingIsLight(s, t, now, q);
    } else if exists pin :: Freezes(s, t, now, q, pin) {
      var pin :| Freezes(s, t, now, q, pin);
      FreezingIsLight(s, t, now, q, pin);
    }
  }

  /** A message as dispatch sees it, with bare digits already read. */
  function Expanded(s: State, i: Input): Message
    requires i.Said?
  {
    i.m.(intent := IntentOf(s, i))
  }

  /** Every step is tidy for its caller, or one of the five, or a deposit, the expiry job or a shared
      contact. */
  ghost predicate StepKind(c: Config, s: State, t: State, i: Input)
    requires |c.tiers| == 3
  {
    match i
    case Said(at, raw, m) =>
      && (IsTelegram(NormalizePhone(raw)) ==> t == s)
      && MessageKind(c, s, t, at, NormalizePhone(raw), Expanded(s, i))
    case Called(at, raw) => Tidy(s, t, at, NormalizePhone(raw))
    case Flashed(at, raw) => Tidy(s, t, at, NormalizePhone(raw))
    case Memoed(at, raw, memo) => Tidy(s, t, at, NormalizePhone(raw))
    case Deposited(at, to, amount) => t == s.Credit(WalletOf(to), amount)
    case ExpiryJob(at, outcomes) => t == Claims.Expire(c, s, at, outcomes).0
    case Shared(_, chatId, contact) => Channels.Shares(s, t, NormalizePhone(contact), Channels.ChatAccount(chatId))
    case NameDropped(at, raw) => Tidy(s, t, at, NormalizePhone(raw))
  }

  lemma MemoIsTidy(s: State, now: nat, q: Phone, memo: string)
    ensures Tidy(s, MemoFx(s, q, memo).0, now, q)
  {
    hide CutMemo;
    var t := MemoFx(s, q, memo).0;
    if q in s.sessions && s.sessions[q].PSend? {
      assert t == s.(sessions := s.sessions[q := s.sessions[q].(memo := CutMemo(memo))]);
    } else {
      assert t == s;
    }
  }

  lemma StepIsKnown(c: Config, s: State, i: Input)
    requires |c.tiers| == 3 && FromPeople(c, i) && Rooted(c, s)
    ensures StepKind(c, s, Step(c, s, i), i)
  {
    match i
    case Said(at, raw, m) =>
      var q := NormalizePhone(raw);
      if IsTelegram(q) {
        IdleIsTidy(s, at, q);
      } else {
        DispatchKind(c, s, at, q, Expanded(s, i));
      }
    case Called(at, raw) => JoinIsTidy(s, at, NormalizePhone(raw), None);
    case Flashed(at, raw) =>
      IdleIsTidy(s, at, NormalizePhone(raw));
      ReleaseIsTidy(s, at, NormalizePhone(raw));
    case Memoed(at, raw, memo) => MemoIsTidy(s, at, NormalizePhone(raw), memo);
    case Deposited(at, to, amount) =>
    case ExpiryJob(at, outcomes) =>
    case Shared(_, chatId, contact) => Channels.SharingShares(s, chatId, contact);
    case NameDropped(at, raw) => ReleaseNameIsTidy(s, at, NormalizePhone(raw));
  }

  /** The same message seen from phone p. */
  lemma MessageHasEffect(c: Config, s: State, t: State, i: Input, p: Phone)
    requires |c.tiers| == 3 && c.Ordinary(p) && i.Said?
    requires MessageKind(c, s, t, i.at, NormalizePhone(i.raw), Expanded(s, i))
    ensures Effect(c, s, t, i, p)
  {
    var q, m := NormalizePhone(i.raw), Expanded(s, i);
    if Tidy(s, t, i.at, q) {
      TidyIsHarmless(s, t, i.at, q, p);
    } else if Completes(c, s, t, i.at, q, m.intent, m.env) {
      SetPinIsHarmless(c, s, i.at, q, m.intent.newPin, m.env.payouts, p);
    } else if p != q {
      if Opens(c, s, t, i.at, q, m.intent) {
        OpeningIsHarmlessToOthers(c, s, t, i.at, q, m.intent, p);
      } else if Pays(c, s, t, i.at, q, PinOf(s, i), m.env) {
        PayingIsHarmlessToOthers(c, s, t, i.at, q, PinOf(s, i), m.env, p);
      } else if Locks(s, t, i.at, q) {
        LockingIsHarmlessToOthers(s, t, i.at, q, p);
      } else {
        var pin :| Freezes(s, t, i.at, q, pin);
        FreezingIsHarmlessToOthers(s, t, i.at, q, pin, p);
      }
    }
  }

  lemma SharingHasEffect(s: State, t: State, now: nat, phone: Phone, tg: Phone, p: Phone)
    requires Channels.Shares(s, t, phone, tg)
    ensures Harmless(s, t, now, p) || Leaves(s, t, p)
  {
    assert Channels.Untouched(s, t, p) || Channels.Dropped(s, t, p) || Channels.Untouched(s.WithUser(p), t, p);
  }

  /** Every step of a run, seen from any person's phone, is one of the six effects. */
  lemma StepHasEffect(c: Config, s: State, i: Input, p: Phone)
    requires |c.tiers| == 3 && c.Ordinary(p) && FromPeople(c, i) && Rooted(c, s)
    ensures Effect(c, s, Step(c, s, i), i, p)
  {
    var t := Step(c, s, i);
    StepIsKnown(c, s, i);
    match i
    case Said(at, raw, m) => MessageHasEffect(c, s, t, i, p);
    case Called(at, raw) => TidyIsHarmless(s, t, at, NormalizePhone(raw), p);
    case Flashed(at, raw) => TidyIsHarmless(s, t, at, NormalizePhone(raw), p);
    case Memoed(at, raw, memo) => TidyIsHarmless(s, t, at, NormalizePhone(raw), p);
    case Deposited(at, to, amount) => CreditIsHarmless(s, at, WalletOf(to), amount, p);
    case ExpiryJob(at, outcomes) => ExpireIsHarmless(c, s, at, outcomes, p);
    case Shared(at, chatId, contact) => SharingHasEffect(s, t, at, NormalizePhone(contact), Channels.ChatAccount(chatId), p);
    case NameDropped(at, raw) => TidyIsHarmless(s, t, at, NormalizePhone(raw), p);
  }
}
