/** Requests and their confirmations, said one after the other by one caller in any state of the tables:
    what the two messages do together. */
module Dialogue {
  import opened Text
  import opened Tables
  import opened Settings
  import opened Policy
  import opened Payees
  import opened Pipeline
  import opened Runs
  import opened Effects
  import Claims

  /** The tables after one message. */
  function Tell(c: Config, s: State, at: nat, raw: string, intent: Intent, env: Env): State
    requires |c.tiers| == 3
  {
    Step(c, s, Said(at, raw, Message(intent, None, env)))
  }

  /** The caller is set up and owes no name. */
  predicate Caller(s: State, raw: string) {
    var p := NormalizePhone(raw);
    !IsTelegram(p) && p in s.users && Onboarded(s.users[p]) && !(p in s.sessions && s.sessions[p].AwaitingName?)
  }

  lemma Dispatched(c: Config, s: State, at: nat, raw: string, intent: Intent, env: Env)
    requires |c.tiers| == 3 && !IsTelegram(NormalizePhone(raw)) && !intent.Digits?
    ensures Tell(c, s, at, raw, intent, env) == DispatchFx(c, s, at, NormalizePhone(raw), Message(intent, None, env)).0
  {
    hide NormalizePhone, IsTelegram, DispatchFx;
    var m := Message(intent, None, env);
    assert m.(intent := ExpandDigits(s, NormalizePhone(raw), intent)) == m;
  }

  /** What a set-up caller asks is served. */
  lemma Served(c: Config, s: State, at: nat, raw: string, intent: Intent, env: Env)
    requires |c.tiers| == 3 && Caller(s, raw) && !intent.Digits? && !IsAccountIntent(intent)
    requires !intent.Rate? && !intent.Cancel? && !intent.ConfirmWith? && !intent.ConfirmPolicy?
    ensures Tell(c, s, at, raw, intent, env) == ServeFx(c, s, at, NormalizePhone(raw), intent, env).0
  {
    hide ServeFx, NormalizePhone, IsTelegram, AccountFx, ConfirmFx, Tell;
    Dispatched(c, s, at, raw, intent, env);
    assert s.WithUser(NormalizePhone(raw)) == s;
  }

  /** A right PIN while the account is open runs the pending payment. */
  lemma Confirmed(c: Config, s: State, at: nat, raw: string, pin: string, env: Env)
    requires |c.tiers| == 3 && Caller(s, raw)
    requires var p := NormalizePhone(raw); Unlocks(s, at, p, Some(pin)) && p in s.sessions && Money(s.sessions[p])
    ensures var p := NormalizePhone(raw);
            Tell(c, s, at, raw, ConfirmWith(Some(pin)), env) == PayFx(c, s.ClearFails(p), at, p, s.sessions[p], env).0
  {
    hide PayFx, NormalizePhone, IsTelegram, AccountFx, GateFx, Tell, State.ClearFails;
    var p := NormalizePhone(raw);
    Dispatched(c, s, at, raw, ConfirmWith(Some(pin)), env);
    assert s.WithUser(p) == s;
    assert PinStep(c, s, at, p, Some(pin)) == (s.ClearFails(p), None);
    assert ConfirmPaymentFx(c, s, at, p, s.sessions[p], Some(pin), env) == PayFx(c, s.ClearFails(p), at, p, s.sessions[p], env);
  }

  /** An order was opened for the caller by the step from s to t. */
  predicate Opened(s: State, t: State, p: Phone) {
    p in t.sessions && Money(t.sessions[p]) && t.nextKey == s.nextKey + 1 && KeyOf(t.sessions[p]) == s.nextKey
  }

  /** A send is opened exactly if its payee resolves and the gate accepts it; the order names the payee. */
  lemma SendsOpenExactly(c: Config, s: State, at: nat, raw: string, amount: nat, to: string, memo: string, env: Env)
    requires |c.tiers| == 3 && Caller(s, raw)
    ensures var p := NormalizePhone(raw);
            var t, q := Tell(c, s, at, raw, SendTo(amount, to, memo), env), Resolve(c, s, p, to);
            && (Opened(s, t, p) <==> q.Some? && SendGate(c, s, at, p, amount, q.value.title, q.value.phone).0 == Confirm)
            && (Opened(s, t, p) ==>
                  && t.sessions[p] == PSend(amount, q.value.title, q.value.address, q.value.phone, q.value.pendingClaim, s.nextKey, memo)
                  && t == s.(locks := t.locks, sessions := t.sessions, nextKey := t.nextKey))
            && (!Opened(s, t, p) ==> t == s.(locks := t.locks))
  {
    hide Resolve, SendGate, NormalizePhone, ServeOrdersFx, ServeProfileFx, RequestSendFx, Opened, Tell, IsTelegram;
    Served(c, s, at, raw, SendTo(amount, to, memo), env);
    RequestOpensExactly(c, s, at, NormalizePhone(raw), amount, to, memo);
  }

  lemma GateReleases(c: Config, s: State, at: nat, p: Phone, amount: nat, payee: string, phone: Option<Phone>)
    requires |c.tiers| == 3
    ensures var t := SendGate(c, s, at, p, amount, payee, phone).1; t == s.(locks := t.locks)
    ensures SendGate(c, s, at, p, amount, payee, phone).0 != Pass
  {
    hide RulesAccept, LockBlocks, CoolsDown, SentToday, LimitsFor;
  }

  /** A gate may have released locks; then the slot is filled under the next key, or nothing else happens. */
  lemma FillingTheSlot(s: State, t: State, p: Phone, m: Pending)
    requires t == s.(locks := t.locks) && Money(m) && KeyOf(m) == s.nextKey
    ensures var u := t.(nextKey := t.nextKey + 1).PutPending(p, Some(m));
            Opened(s, u, p) && u.sessions[p] == m && u == s.(locks := u.locks, sessions := u.sessions, nextKey := u.nextKey)
    ensures !Opened(s, t, p)
  {
  }

  lemma NothingOpens(s: State, p: Phone)
    ensures !Opened(s, s, p)
  {
  }

  lemma RequestOpensExactly(c: Config, s: State, at: nat, p: Phone, amount: nat, to: string, memo: string)
    requires |c.tiers| == 3
    ensures var t, q := RequestSendFx(c, s, at, p, amount, to, memo).0, Resolve(c, s, p, to);
            && (Opened(s, t, p) <==> q.Some? && SendGate(c, s, at, p, amount, q.value.title, q.value.phone).0 == Confirm)
            && (Opened(s, t, p) ==>
                  && t.sessions[p] == PSend(amount, q.value.title, q.value.address, q.value.phone, q.value.pendingClaim, s.nextKey, memo)
                  && t == s.(locks := t.locks, sessions := t.sessions, nextKey := t.nextKey))
            && (!Opened(s, t, p) ==> t == s.(locks := t.locks))
  {
    hide Resolve, SendGate, Opened, State.PutPending;
    match Resolve(c, s, p, to)
    case None => NothingOpens(s, p);
    case Some(q) =>
      GateReleases(c, s, at, p, amount, q.title, q.phone);
      FillingTheSlot(s, SendGate(c, s, at, p, amount, q.title, q.phone).1, p,
                     PSend(amount, q.title, q.address, q.phone, q.pendingClaim, s.nextKey, memo));
  }

  // ----- what reaches the payee -----

  /** The caller can pay: the right PIN, an open account, and enough for amount and gas. */
  predicate CanPay(s: State, at: nat, p: Phone, pin: string, amount: nat, o: Outcome) {
    Unlocks(s, at, p, Some(pin)) && o.Landed? && amount + o.fee <= s.Bal(p)
  }

  lemma LandedTransfer(s: State, p: Phone, to: string, amount: nat, o: Outcome)
    requires p in s.users && o.Landed? && amount + o.fee <= s.Bal(p)
    ensures var (t, ok) := s.Transfer(p, to, amount, o);
            && ok && t == s.(balance := t.balance)
            && (to != WalletOf(p) ==> t.BalanceAt(to) == s.BalanceAt(to) + amount && t.Bal(p) == s.Bal(p) - amount - o.fee)
            && forall a | a != to && a != WalletOf(p) :: t.BalanceAt(a) == s.BalanceAt(a)
  {
    hide WalletOf;
    CreditIsExact(s, WalletOf(p), -(amount + o.fee));
    CreditIsExact(s.Credit(WalletOf(p), -(amount + o.fee)), to, amount);
  }

  /** Paying an order for an address: the money arrives there, and nobody else's balance changes. */
  lemma AddressIsPaid(c: Config, s: State, at: nat, p: Phone, m: Pending, env: Env)
    requires m.PSend? && m.toAddress.Some? && !m.pendingClaim && m.key !in s.idem && p in s.users
    requires env.outcome.Landed? && m.amount + env.outcome.fee <= s.Bal(p) && m.toAddress.value != WalletOf(p)
    ensures var t := PayFx(c, s, at, p, m, env).0;
            && t.BalanceAt(m.toAddress.value) == s.BalanceAt(m.toAddress.value) + m.amount
            && t.Bal(p) == s.Bal(p) - m.amount - env.outcome.fee
            && (forall a | a != m.toAddress.value && a != WalletOf(p) :: t.BalanceAt(a) == s.BalanceAt(a))
            && t.claims == s.claims && p !in t.sessions
  {
    hide State.Transfer, WalletOf;
    var s1, t := s.(idem := s.idem[m.key := InFlight]), PayFx(c, s, at, p, m, env).0;
    LandedTransfer(s1, p, m.toAddress.value, m.amount, env.outcome);
    var s2 := s1.Transfer(p, m.toAddress.value, m.amount, env.outcome).0;
    assert t.balance == s2.balance;
    assert forall a :: t.BalanceAt(a) == s2.BalanceAt(a) && s1.BalanceAt(a) == s.BalanceAt(a);
  }

  /** Paying an order for a number without an account: the money waits in the escrow, in a claim of its own. */
  lemma NumberIsHeldFor(c: Config, s: State, at: nat, p: Phone, m: Pending, env: Env)
    requires m.PSend? && m.toPhone.Some? && m.pendingClaim && m.key !in s.idem && p in s.users && p != c.escrow
    requires env.outcome.Landed? && m.amount + env.outcome.fee <= s.Bal(p) && Claims.CanOpen(c, s, at, p)
    ensures var t := PayFx(c, s, at, p, m, env).0;
            && t.claims == s.claims + [Claim(p, m.toPhone.value, m.amount, Held, at + c.claimMs, at)]
            && t.Bal(c.escrow) == s.Bal(c.escrow) + m.amount && t.Bal(p) == s.Bal(p) - m.amount - env.outcome.fee
            && p !in t.sessions
  {
    hide State.Transfer, Claims.WithEscrow, ClaimsOpened;
    var s1, t := s.(idem := s.idem[m.key := InFlight]), PayFx(c, s, at, p, m, env).0;
    var e := Claims.WithEscrow(c, s1);
    Claims.EscrowUserOnly(c, s1);
    WalletsDiffer(p, c.escrow);
    LandedTransfer(e, p, WalletOf(c.escrow), m.amount, env.outcome);
    var u := e.Transfer(p, WalletOf(c.escrow), m.amount, env.outcome).0;
    assert t.balance == u.balance;
  }

  /** The order in the slot of p pays q: into its wallet if it has an account, else in a claim. */
  predicate OrderFor(s: State, p: Phone, q: Phone) {
    && p in s.sessions && s.sessions[p].PSend? && s.sessions[p].toPhone == Some(q)
    && if q in s.users then s.sessions[p].toAddress == Some(WalletOf(q)) && !s.sessions[p].pendingClaim else s.sessions[p].pendingClaim
  }

  /** Once it is confirmed the money is with q. */
  lemma ConfirmingReaches(c: Config, s: State, at: nat, raw: string, q: Phone, pin: string, env: Env)
    requires |c.tiers| == 3 && Caller(s, raw) && OrderFor(s, NormalizePhone(raw), q) && NormalizePhone(raw) != q && c.Ordinary(NormalizePhone(raw))
    requires s.sessions[NormalizePhone(raw)].key !in s.idem
    requires CanPay(s, at, NormalizePhone(raw), pin, s.sessions[NormalizePhone(raw)].amount, env.outcome)
    requires q !in s.users ==> Claims.CanOpen(c, s, at, NormalizePhone(raw))
    ensures var p := NormalizePhone(raw);
            var t, amount := Tell(c, s, at, raw, ConfirmWith(Some(pin)), env), s.sessions[p].amount;
            && (q in s.users ==> t.Bal(q) == s.Bal(q) + amount)
            && (q !in s.users ==> t.claims == s.claims + [Claim(p, q, amount, Held, at + c.claimMs, at)])
            && t.Bal(p) == s.Bal(p) - amount - env.outcome.fee
  {
    hide NormalizePhone, IsTelegram, PayFx, Tell, WalletOf, ClaimsOpened;
    var p := NormalizePhone(raw);
    var m, u := s.sessions[p], s.ClearFails(p);
    Confirmed(c, s, at, raw, pin, env);
    WalletsDiffer(p, q);
    assert u.balance == s.balance && u.claims == s.claims && u.idem == s.idem;
    assert u.Bal(p) == s.Bal(p) && u.Bal(q) == s.Bal(q);
    if q in s.users {
      AddressIsPaid(c, u, at, p, m, env);
    } else {
      NumberIsHeldFor(c, u, at, p, m, env);
    }
  }
}
