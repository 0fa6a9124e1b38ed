/** What one handled message can touch.  Most handlers are tidy: they move no money, leave every
    other caller alone, only ever drop the caller's rules and never invent an order for payment.
    Later modules reason about tidy handlers all at once. */
module Frames {
  import opened Text
  import opened Tables
  import opened Settings
  import opened Policy
  import opened Payees
  import opened Pipeline
  import Names

  /** Ledger rows that record money leaving their phone. */
  predicate Outflow(k: Kind) {
    k == Send || k == EscrowHold || k == Swap || k == Airtime
  }

  predicate Neutral(k: Kind) {
    k == Nanopay || k == SavingsLock
  }

  /** Payment orders: pendings that spend or lock money once confirmed. */
  predicate Guarded(m: Pending) {
    m.PSend? || m.PSwap? || m.PTopup? || m.PLock?
  }

  /** The same payment order, whatever its memo. */
  predicate SameOrder(m: Pending, n: Pending) {
    m == n || (m.PSend? && n.PSend? && m.(memo := "") == n.(memo := ""))
  }

  // ----- sums under the table operations -----

  lemma {:induction false} LockedOnlyFalls(rows: seq<LockRow>, p: Phone, t: nat, u: nat)
    requires t <= u
    ensures SumLocked(rows, p, u) <= SumLocked(rows, p, t)
  {
    if |rows| > 0 {
      LockedOnlyFalls(rows[..|rows| - 1], p, t, u);
    }
  }

  lemma {:induction false} ReleaseKeepsLocked(rows: seq<LockRow>, q: Phone, now: nat, p: Phone, t: nat)
    requires now <= t
    ensures SumLocked(ReleaseRows(rows, q, now), p, t) == SumLocked(rows, p, t)
  {
    if |rows| > 0 {
      ReleaseKeepsLocked(rows[..|rows| - 1], q, now, p, t);
      var out := ReleaseRows(rows, q, now);
      assert out[..|out| - 1] == ReleaseRows(rows[..|rows| - 1], q, now);
    }
  }

  lemma {:induction false} ReleaseKeepsOthers(rows: seq<LockRow>, q: Phone, now: nat, p: Phone, t: nat)
    requires p != q
    ensures SumLocked(ReleaseRows(rows, q, now), p, t) == SumLocked(rows, p, t)
  {
    if |rows| > 0 {
      ReleaseKeepsOthers(rows[..|rows| - 1], q, now, p, t);
      var out := ReleaseRows(rows, q, now);
      assert out[..|out| - 1] == ReleaseRows(rows[..|rows| - 1], q, now);
    }
  }

  lemma {:induction false} RowsOfOthers(rows: seq<LedgerRow>, more: seq<LedgerRow>, p: Phone, kind: Kind, day: nat)
    requires forall i | 0 <= i < |more| :: more[i].phone == p ==> more[i].kind != kind
    ensures SumKind(rows + more, p, kind, day) == SumKind(rows, p, kind, day)
  {
    if more == [] {
      assert rows + more == rows;
    } else {
      RowsOfOthers(rows, more[..|more| - 1], p, kind, day);
      assert (rows + more)[..|rows + more| - 1] == rows + more[..|more| - 1];
    }
  }

  lemma {:induction false} PaidStaysPaid(rows: seq<LedgerRow>, more: seq<LedgerRow>, p: Phone, to: string)
    ensures SumTo(rows + more, p, to) >= SumTo(rows, p, to)
  {
    if more == [] {
      assert rows + more == rows;
    } else {
      PaidStaysPaid(rows, more[..|more| - 1], p, to);
      assert (rows + more)[..|rows + more| - 1] == rows + more[..|more| - 1];
    }
  }

  // ----- tidy handlers -----

  /** Nothing but q's own rows changed and no money moved. */
  ghost predicate Private(s: State, t: State, now: nat, q: Phone) {
    && t.balance == s.balance && t.claims == s.claims && t.idem == s.idem && s.nextKey <= t.nextKey
    && s.users.Keys <= t.users.Keys
    && (forall p | p in t.users && p != q :: p in s.users && t.users[p] == s.users[p])
    && (forall p | p != q :: (p in t.sessions <==> p in s.sessions) && (p in s.sessions ==> t.sessions[p] == s.sessions[p]))
    && (forall p | p != q :: t.Rules(p) == s.Rules(p))
    && (forall p, u: nat | p != q :: t.Locked(p, u) == s.Locked(p, u))
    && s.ledger <= t.ledger
    && (forall k | |s.ledger| <= k < |t.ledger| :: t.ledger[k].phone == q && Neutral(t.ledger[k].kind) && t.ledger[k].at == now)
  }

  ghost predicate Tidy(s: State, t: State, now: nat, q: Phone) {
    && Private(s, t, now, q)
    && (forall r | r in t.Rules(q) :: r in s.Rules(q))
    && (forall u: nat | u >= now :: t.Locked(q, u) == s.Locked(q, u))
    && (q in t.sessions && Guarded(t.sessions[q]) ==> q in s.sessions && SameOrder(s.sessions[q], t.sessions[q]))
    && (q in s.users && Onboarded(s.users[q]) ==> Onboarded(t.users[q]))
    && (q in s.users ==> t.users[q].tier >= s.users[q].tier)
  }

  lemma TidyChain(s: State, t: State, u: State, now: nat, q: Phone)
    requires Tidy(s, t, now, q) && Tidy(t, u, now, q)
    ensures Tidy(s, u, now, q)
  {
  }

  lemma IdleIsTidy(s: State, now: nat, q: Phone)
    ensures Tidy(s, s, now, q)
  {
  }

  lemma KnowingIsTidy(s: State, now: nat, q: Phone)
    ensures Tidy(s, s.WithUser(q), now, q)
  {
  }

  /** Emptying the slot or filling it with anything but a payment order. */
  lemma SlotIsTidy(s: State, now: nat, q: Phone, m: Option<Pending>)
    requires m.Some? ==> !Guarded(m.value)
    ensures Tidy(s, s.PutPending(q, m), now, q)
  {
  }

  lemma UserUpdateIsTidy(s: State, now: nat, q: Phone, u: User)
    requires q in s.users && (Onboarded(s.users[q]) ==> Onboarded(u)) && u.tier >= s.users[q].tier
    ensures Tidy(s, s.PutUser(q, u), now, q)
  {
  }

  lemma NeutralRowIsTidy(s: State, now: nat, q: Phone, r: LedgerRow)
    requires r.phone == q && Neutral(r.kind) && r.at == now
    ensures Tidy(s, s.AddRow(r), now, q)
  {
  }

  lemma ReleaseIsTidy(s: State, now: nat, q: Phone)
    ensures Tidy(s, s.ReleaseMatured(q, now), now, q)
  {
    forall p, t: nat | p != q || t >= now
      ensures s.ReleaseMatured(q, now).Locked(p, t) == s.Locked(p, t)
    {
      if p == q {
        ReleaseKeepsLocked(s.locks, q, now, p, t);
      } else {
        ReleaseKeepsOthers(s.locks, q, now, p, t);
      }
    }
  }

  lemma ClearRulesIsTidy(s: State, now: nat, q: Phone)
    ensures Tidy(s, s.(rules := RevokeRows(s.rules, q)), now, q)
  {
    forall p ensures ActiveRules(RevokeRows(s.rules, q), p) == if p == q then [] else s.Rules(p) {
      RevokedHasNoActive(s.rules, q, p);
    }
  }

  lemma GreetIsTidy(s: State, now: nat, q: Phone)
    requires q in s.users
    ensures Tidy(s, GreetFx(s, q).0, now, q)
  {
    IdleIsTidy(s, now, q);
    SlotIsTidy(s, now, q, Some(AwaitingName));
    SlotIsTidy(s, now, q, None);
  }

  /** Registering the caller and then rewriting its row. */
  lemma OwnRowIsTidy(s: State, now: nat, q: Phone, u: User)
    requires q in s.WithUser(q).users
    requires (Onboarded(s.WithUser(q).users[q]) ==> Onboarded(u)) && u.tier >= s.WithUser(q).users[q].tier
    ensures Tidy(s, s.WithUser(q).PutUser(q, u), now, q)
  {
    KnowingIsTidy(s, now, q);
    UserUpdateIsTidy(s.WithUser(q), now, q, u);
    TidyChain(s, s.WithUser(q), s.WithUser(q).PutUser(q, u), now, q);
  }

  lemma FinishNamingIsTidy(s: State, now: nat, q: Phone, name: string)
    ensures Tidy(s, FinishNamingFx(s, q, name).0, now, q)
  {
    var t := s.WithUser(q);
    var v := t.users[q].(name := Some(name));
    OwnRowIsTidy(s, now, q, v);
    SlotIsTidy(t.PutUser(q, v), now, q, None);
    TidyChain(s, t.PutUser(q, v), t.PutUser(q, v).PutPending(q, None), now, q);
  }

  lemma JoinIsTidy(s: State, now: nat, q: Phone, name: Option<string>)
    ensures Tidy(s, JoinFx(s, q, name).0, now, q)
  {
    if name.Some? {
      FinishNamingIsTidy(s, now, q, name.value);
    } else {
      KnowingIsTidy(s, now, q);
      GreetIsTidy(s.WithUser(q), now, q);
      TidyChain(s, s.WithUser(q), GreetFx(s.WithUser(q), q).0, now, q);
    }
  }

  lemma NoPinYetIsTidy(c: Config, s: State, now: nat, q: Phone, pin: string, payouts: seq<Outcome>)
    requires var u := s.WithUser(q).users[q]; u.name.None? || u.pin.Some?
    ensures Tidy(s, SetPinFx(c, s, now, q, pin, payouts).0, now, q)
  {
    var t := s.WithUser(q);
    KnowingIsTidy(s, now, q);
    if t.users[q].name.None? {
      SlotIsTidy(t, now, q, Some(AwaitingName));
      TidyChain(s, t, t.PutPending(q, Some(AwaitingName)), now, q);
    }
  }

  lemma RegisteredIsThere(s: State, q: Phone)
    ensures q in s.WithUser(q).users
  {
  }

  lemma ChangePinIsTidy(s: State, now: nat, q: Phone, oldPin: string, newPin: string)
    ensures Tidy(s, ChangePinFx(s, q, oldPin, newPin).0, now, q)
  {
    hide Tidy, State.WithUser;
    var t := s.WithUser(q);
    RegisteredIsThere(s, q);
    var v := t.users[q].(pin := Some(newPin), fails := 0, lockedUntil := None);
    if PinMatches(t.users[q], oldPin) {
      assert t.PutPin(q, newPin).ClearFails(q) == t.PutUser(q, v);
      OwnRowIsTidy(s, now, q, v);
    } else {
      KnowingIsTidy(s, now, q);
    }
  }

  lemma RecoveryIsTidy(c: Config, s: State, now: nat, q: Phone, code: string)
    ensures Tidy(s, RecoverFx(c, s, now, q, code).0, now, q)
  {
    var u := s.WithUser(q).users[q];
    var v := u.(recovery := Some(Recovery(code, now + c.recoveryMs)));
    var t := RecoverFx(c, s, now, q, code).0;
    if u.pin.None? {
      assert t == s.WithUser(q);
      KnowingIsTidy(s, now, q);
    } else {
      assert t == s.WithUser(q).PutUser(q, v);
      OwnRowIsTidy(s, now, q, v);
    }
  }

  lemma RecoveryConfirmIsTidy(c: Config, s: State, now: nat, q: Phone, code: string, pin: string)
    ensures Tidy(s, RecoverConfirmFx(c, s, now, q, code, pin).0, now, q)
  {
    hide Tidy, State.WithUser;
    RegisteredIsThere(s, q);
    var u := s.WithUser(q).users[q];
    var v := u.(pin := Some(pin), fails := 0, lockedUntil := None, recovery := None, riskUntil := Some(now + c.cooldownMs));
    if u.recovery.None? || (u.recovery.value.expires >= now && u.recovery.value.code != code) {
      KnowingIsTidy(s, now, q);
    } else if u.recovery.value.expires < now {
      OwnRowIsTidy(s, now, q, u.(recovery := None));
    } else {
      OwnRowIsTidy(s, now, q, v);
    }
  }

  /** Naming, PIN and security messages, all but the one that completes setup. */
  lemma AccountIsTidy(c: Config, s: State, now: nat, q: Phone, intent: Intent, env: Env)
    requires IsAccountIntent(intent)
    requires intent.SetPinTo? ==> var u := s.WithUser(q).users[q]; u.name.None? || u.pin.Some?
    ensures Tidy(s, AccountFx(c, s, now, q, intent, env).0, now, q)
  {
    var u := s.WithUser(q).users[q];
    if intent.SetName? {
      FinishNamingIsTidy(s, now, q, intent.name);
    } else if intent.Hello? {
      JoinIsTidy(s, now, q, None);
    } else if intent.SetPinTo? {
      NoPinYetIsTidy(c, s, now, q, intent.newPin, env.payouts);
    } else if intent.ChangePin? {
      ChangePinIsTidy(s, now, q, intent.oldPin, intent.newPin);
    } else if intent.RecoverPin? {
      RecoveryIsTidy(c, s, now, q, env.code);
    } else if intent.RecoverConfirm? {
      RecoveryConfirmIsTidy(c, s, now, q, intent.code, intent.newPin);
    } else if intent.ReportSim? {
      assert AccountFx(c, s, now, q, intent, env).0 == s.WithUser(q).PutUser(q, u.(riskUntil := Some(now + c.cooldownMs)));
      OwnRowIsTidy(s, now, q, u.(riskUntil := Some(now + c.cooldownMs)));
    } else if intent.CallbackVerify? {
      assert AccountFx(c, s, now, q, intent, env).0 == s.WithUser(q).PutUser(q, u.(callbackUntil := Some(now + c.callbackMs)));
      OwnRowIsTidy(s, now, q, u.(callbackUntil := Some(now + c.callbackMs)));
    } else {
      JoinIsTidy(s, now, q, intent.withName);
    }
  }

  /** Standing orders and contacts weigh nothing. */
  lemma SideTablesAreTidy(s: State, t: State, now: nat, q: Phone)
    requires t == s.(orders := t.orders, contacts := t.contacts)
    ensures Tidy(s, t, now, q)
  {
  }

  lemma CancelOrderIsTidy(s: State, now: nat, q: Phone, id: nat)
    ensures Tidy(s, CancelOrderFx(s, q, id), now, q)
  {
    var t := CancelOrderFx(s, q, id);
    if id < |s.orders| && s.orders[id].phone == q && s.orders[id].active {
      assert t == s.(orders := t.orders);
    } else {
      assert t == s;
    }
    SideTablesAreTidy(s, t, now, q);
  }

  lemma RequestOrderIsTidy(c: Config, s: State, now: nat, q: Phone, amount: nat, to: string, cadence: Cadence)
    ensures Tidy(s, RequestOrderFx(c, s, q, amount, to, cadence).0, now, q)
  {
    match Resolve(c, s, q, to)
    case None => IdleIsTidy(s, now, q);
    case Some(found) => SlotIsTidy(s, now, q, Some(PStanding(amount, found.title, found.phone, found.address, cadence)));
  }

  lemma OrdersAreTidy(c: Config, s: State, now: nat, q: Phone, intent: Intent)
    ensures Tidy(s, ServeOrdersFx(c, s, q, intent).0, now, q)
  {
    if intent.SetPolicy? && intent.draft != [] {
      SlotIsTidy(s, now, q, Some(PPolicy(intent.draft)));
    } else if intent.ClearPolicy? {
      ClearRulesIsTidy(s, now, q);
    } else if intent.Standing? {
      RequestOrderIsTidy(c, s, now, q, intent.amount, intent.to, intent.cadence);
    } else if intent.CancelStanding? {
      CancelOrderIsTidy(s, now, q, intent.id);
    } else if intent.Shop? && intent.found {
      SlotIsTidy(s, now, q, Some(PShop));
    } else if intent.Buy? && intent.found {
      SlotIsTidy(s, now, q, None);
    } else {
      IdleIsTidy(s, now, q);
    }
  }

  lemma ClaimIsTidy(s: State, now: nat, q: Phone, raw: string)
    ensures Tidy(s, Names.Claim(s, q, raw).Or(s), now, q)
  {
    var t := Names.Claim(s, q, raw);
    if t.Some? {
      assert t.value == s.(names := t.value.names).PutUser(q, t.value.users[q]);
      UserUpdateIsTidy(s, now, q, t.value.users[q]);
    } else {
      IdleIsTidy(s, now, q);
    }
  }

  lemma ReleaseNameIsTidy(s: State, now: nat, q: Phone)
    ensures Tidy(s, Names.Release(s, q), now, q)
  {
    var t := Names.Release(s, q);
    if q in s.users {
      assert t == s.(names := t.names).PutUser(q, t.users[q]);
      UserUpdateIsTidy(s, now, q, t.users[q]);
    } else {
      IdleIsTidy(s, now, q);
    }
  }

  lemma ContactIsTidy(c: Config, s: State, now: nat, q: Phone, contact: string, target: string)
    ensures Tidy(s, SaveContactFx(c, s, q, contact, target).0, now, q)
  {
    hide Lower, NormalizePhone, IsDigit, Tidy;
    var t := SaveContactFx(c, s, q, contact, target).0;
    if c.isAddress(target) {
      assert t == s.(contacts := t.contacts);
    } else if t != s {
      assert t == s.(contacts := t.contacts);
    }
    SideTablesAreTidy(s, t, now, q);
  }

  lemma ProfileIsTidy(c: Config, s: State, now: nat, q: Phone, intent: Intent, got: nat)
    requires |c.tiers| == 3 && q in s.users
    ensures Tidy(s, ServeProfileFx(c, s, now, q, intent, got).0, now, q)
  {
    hide Tidy, Names.Claim, SaveContactFx, State.ReleaseMatured, PriceGate;
    if intent.ClaimName? {
      ClaimIsTidy(s, now, q, intent.raw);
    } else if intent.VerifyId? && intent.wellFormed {
      UserUpdateIsTidy(s, now, q, s.users[q].(tier := Max(s.users[q].tier, 1)));
    } else if intent.AttestSim? && intent.accepted {
      UserUpdateIsTidy(s, now, q, s.users[q].(tier := 2));
    } else if intent.Balance? {
      ReleaseIsTidy(s, now, q);
    } else if intent.Save? {
      ContactIsTidy(c, s, now, q, intent.contact, intent.target);
    } else {
      IdleIsTidy(s, now, q);
      NeutralRowIsTidy(s, now, q, LedgerRow(q, Nanopay, got, None, now));
    }
  }

  /** A refused or unconfirmed PIN leaves everything tidy; a good one too. */
  lemma PinStepIsTidy(c: Config, s: State, now: nat, q: Phone, pin: Option<string>)
    requires q in s.users
    ensures Tidy(s, PinStep(c, s, now, q, pin).0, now, q)
    ensures PinStep(c, s, now, q, pin).1 == None ==>
              PinStep(c, s, now, q, pin).0 == s.ClearFails(q) && Onboarded(s.users[q]) && !PinLocked(s.users[q], now)
              && pin.Some? && PinMatches(s.users[q], pin.value)
  {
    IdleIsTidy(s, now, q);
    GreetIsTidy(s, now, q);
    UserUpdateIsTidy(s, now, q, s.ClearFails(q).users[q]);
    FailIsTidy(c, s, now, q);
  }

  lemma FailIsTidy(c: Config, s: State, now: nat, q: Phone)
    requires q in s.users
    ensures Tidy(s, s.FailPin(q, now, c.maxFails, c.lockMs), now, q)
    ensures Tidy(s, s.FailPin(q, now, c.maxFails, c.lockMs).PutPending(q, None), now, q)
  {
    var t := s.FailPin(q, now, c.maxFails, c.lockMs);
    UserUpdateIsTidy(s, now, q, t.users[q]);
    SlotIsTidy(t, now, q, None);
    TidyChain(s, t, t.PutPending(q, None), now, q);
  }
}
