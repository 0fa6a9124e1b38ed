/** What the other messages lead to: standing orders, savings locks, recovery, warnings and callbacks,
    identity, a first PIN, bare digits and cancellations (orchestrator/src/lib/pipeline.ts), each said by
    its effect on what the caller can do afterwards. */
module Consequences {
  import opened Text
  import opened Tables
  import opened Settings
  import opened Policy
  import opened Payees
  import opened Calendar
  import opened Pipeline
  import opened Runs
  import opened Frames
  import opened Gates
  import opened Dialogue
  import Claims

  // ----- standing orders -----

  /** A confirmation with the right PIN while a standing order or a savings lock is pending. */
  lemma OpenlyConfirmed(c: Config, s: State, at: nat, raw: string, pin: string, env: Env)
    requires |c.tiers| == 3 && Caller(s, raw) && NormalizePhone(raw) in s.sessions
    requires var m := s.sessions[NormalizePhone(raw)]; m.PStanding? || m.PLock?
    ensures var p, t := NormalizePhone(raw), Tell(c, s, at, raw, ConfirmWith(Some(pin)), env);
            && (s.sessions[p].PStanding? ==> t == ConfirmOrderFx(c, s, at, p, s.sessions[p], Some(pin)).0)
            && (s.sessions[p].PLock? ==> t == ConfirmLockFx(c, s, at, p, s.sessions[p], Some(pin)).0)
  {
    hide ConfirmOrderFx, ConfirmLockFx, NormalizePhone, IsTelegram, AccountFx, GateFx, Tell;
    Dispatched(c, s, at, raw, ConfirmWith(Some(pin)), env);
    assert s.WithUser(NormalizePhone(raw)) == s;
  }

  lemma OrderIsAsked(c: Config, s: State, at: nat, raw: string, amount: nat, to: string, cadence: Cadence, env: Env)
    requires |c.tiers| == 3 && Caller(s, raw) && Resolve(c, s, NormalizePhone(raw), to).Some?
    ensures var p, q := NormalizePhone(raw), Resolve(c, s, NormalizePhone(raw), to).value;
            Tell(c, s, at, raw, Standing(amount, to, cadence), env)
            == s.(sessions := s.sessions[p := PStanding(amount, q.title, q.phone, q.address, cadence)])
  {
    hide Resolve, NormalizePhone, IsTelegram, ServeMoneyFx, ServeProfileFx, Tell;
    Served(c, s, at, raw, Standing(amount, to, cadence), env);
  }

  /** The first run that an order confirmed at `at` is due for. */
  predicate FirstRun(cadence: Cadence, at: nat, next: nat) {
    if cadence == Weekly then next == at + WEEK_MS
    else MonthIndex(next) == MonthIndex(at) + 1 && DateOf(DayOf(next)) == 1 && next % DAY_MS == 0
  }

  /** Asking for a standing order and confirming it with the PIN adds one order of the caller, for the amount
      and payee asked for, that is first due at midnight on the first of next month, or in seven days. */
  lemma ConfirmedOrdersAreOpened(c: Config, s: State, at: nat, later: nat, raw: string, amount: nat, to: string, cadence: Cadence, pin: string, env: Env, env2: Env)
    requires |c.tiers| == 3 && Caller(s, raw) && Resolve(c, s, NormalizePhone(raw), to).Some?
    requires PinMatches(s.users[NormalizePhone(raw)], pin)
    ensures var p, q := NormalizePhone(raw), Resolve(c, s, NormalizePhone(raw), to).value;
            var t := Tell(c, s, at, raw, Standing(amount, to, cadence), env);
            var u := Tell(c, t, later, raw, ConfirmWith(Some(pin)), env2);
            && |u.orders| == |s.orders| + 1 && s.orders <= u.orders && p !in u.sessions
            && var o := u.orders[|s.orders|];
               && o == StandingOrder(p, amount, q.title, q.phone, q.address, cadence, o.nextRun, true)
               && FirstRun(cadence, later, o.nextRun)
  {
    hide Resolve, NormalizePhone, IsTelegram, Tell, FirstOfNextMonth, NextStandingRun, MonthIndex, DateOf;
    OrderIsAsked(c, s, at, raw, amount, to, cadence, env);
    var t := Tell(c, s, at, raw, Standing(amount, to, cadence), env);
    OpenlyConfirmed(c, t, later, raw, pin, env2);
    FirstOfNextMonthIsNext(later);
    WeeklyIsSevenDays(later);
  }

  // ----- savings locks -----

  lemma LockIsAsked(c: Config, s: State, at: nat, raw: string, amount: nat, until: nat, env: Env)
    requires |c.tiers| == 3 && Caller(s, raw)
    ensures var p, t := NormalizePhone(raw), Tell(c, s, at, raw, LockSavings(amount, Some(until)), env);
            && t == s.(locks := ReleaseRows(s.locks, p, at), sessions := t.sessions)
            && t.sessions == if amount <= s.Available(p, at) then s.sessions[p := PLock(amount, until)] else s.sessions
  {
    hide NormalizePhone, IsTelegram, ServeOrdersFx, ServeProfileFx, Tell, ReleaseRows, State.Available;
    Served(c, s, at, raw, LockSavings(amount, Some(until)), env);
  }

  /** Asking to lock savings and confirming with the PIN holds the amount back until the date and not a moment
      longer, and moves no money. */
  lemma ConfirmedLocksHold(c: Config, s: State, at: nat, later: nat, now: nat, raw: string, amount: nat, until: nat, pin: string, env: Env, env2: Env)
    requires |c.tiers| == 3 && Caller(s, raw) && PinMatches(s.users[NormalizePhone(raw)], pin)
    requires amount <= s.Available(NormalizePhone(raw), at) && at <= now
    ensures var p := NormalizePhone(raw);
            var u := Tell(c, Tell(c, s, at, raw, LockSavings(amount, Some(until)), env), later, raw, ConfirmWith(Some(pin)), env2);
            && u.Locked(p, now) == s.Locked(p, now) + (if now < until then amount else 0)
            && u.balance == s.balance && p !in u.sessions
  {
    hide NormalizePhone, IsTelegram, Tell, ReleaseRows, SumLocked, State.Available;
    var p := NormalizePhone(raw);
    LockIsAsked(c, s, at, raw, amount, until, env);
    var t := Tell(c, s, at, raw, LockSavings(amount, Some(until)), env);
    OpenlyConfirmed(c, t, later, raw, pin, env2);
    ReleaseKeepsLocked(s.locks, p, at, p, now);
    LocksHoldUntilTheyMature(t, p, amount, until, now);
  }

  // ----- recovery, warnings and callbacks -----

  /** An account message of a caller. */
  lemma Accounted(c: Config, s: State, at: nat, raw: string, intent: Intent, env: Env)
    requires |c.tiers| == 3 && !IsTelegram(NormalizePhone(raw)) && IsAccountIntent(intent)
    requires !(NormalizePhone(raw) in s.sessions && s.sessions[NormalizePhone(raw)].AwaitingName?)
    ensures Tell(c, s, at, raw, intent, env) == AccountFx(c, s, at, NormalizePhone(raw), intent, env).0
  {
    hide NormalizePhone, IsTelegram, AccountFx, GateFx, ConfirmFx, Tell;
    Dispatched(c, s, at, raw, intent, env);
  }

  /** Only p's row may differ. */
  ghost predicate OnlyRow(s: State, t: State, p: Phone) {
    t == s.(users := t.users) && p in t.users && forall q | q != p :: (q in t.users <==> q in s.users) && (q in s.users ==> t.users[q] == s.users[q])
  }

  lemma CodeIsDrawn(c: Config, s: State, at: nat, raw: string, env: Env)
    requires |c.tiers| == 3 && Caller(s, raw)
    ensures var p, t := NormalizePhone(raw), Tell(c, s, at, raw, RecoverPin, env);
            OnlyRow(s, t, p) && t.users[p] == s.users[p].(recovery := Some(Recovery(env.code, at + c.recoveryMs)))
  {
    hide NormalizePhone, IsTelegram, Tell, FinishNamingFx, JoinFx, SetPinFx, ChangePinFx, RecoverConfirmFx, RiskFx, CallbackFx;
    Accounted(c, s, at, raw, RecoverPin, env);
    assert s.WithUser(NormalizePhone(raw)) == s;
  }

  /** A recovery: with the drawn code in time the new PIN is the PIN, the account is open, and a risk window is
      open for the cool-down; with any other code, or too late, the PIN and the window stay as they were. */
  lemma RecoveryResetsThePin(c: Config, s: State, at: nat, later: nat, raw: string, code: string, pin: string, env: Env, env2: Env)
    requires |c.tiers| == 3 && Caller(s, raw) && at <= later
    ensures var p := NormalizePhone(raw);
            var u := Tell(c, Tell(c, s, at, raw, RecoverPin, env), later, raw, RecoverConfirm(code, pin), env2);
            && p in u.users && u.balance == s.balance
            && if code == env.code && later <= at + c.recoveryMs then
                 && PinMatches(u.users[p], pin) && !PinLocked(u.users[p], later) && u.users[p].recovery.None?
                 && forall now: nat :: RiskWindow(u, p, now) <==> now < later + c.cooldownMs
               else
                 && u.users[p].pin == s.users[p].pin && PinLocked(u.users[p], later) == PinLocked(s.users[p], later)
                 && forall now: nat :: RiskWindow(u, p, now) <==> RiskWindow(s, p, now)
  {
    hide NormalizePhone, IsTelegram, Tell, FinishNamingFx, JoinFx, SetPinFx, ChangePinFx, RecoverFx, RiskFx, CallbackFx;
    CodeIsDrawn(c, s, at, raw, env);
    var p, t := NormalizePhone(raw), Tell(c, s, at, raw, RecoverPin, env);
    Accounted(c, t, later, raw, RecoverConfirm(code, pin), env2);
    assert t.WithUser(p) == t;
  }

  /** A report of a changed SIM opens a risk window for the cool-down; a callback opens a callback window. */
  lemma WarningsOpenWindows(c: Config, s: State, at: nat, raw: string, env: Env)
    requires |c.tiers| == 3 && Caller(s, raw)
    ensures var p, t := NormalizePhone(raw), Tell(c, s, at, raw, ReportSim, env);
            && OnlyRow(s, t, p) && (forall now: nat :: RiskWindow(t, p, now) <==> now < at + c.cooldownMs)
            && t.users[p] == s.users[p].(riskUntil := t.users[p].riskUntil)
    ensures var p, t := NormalizePhone(raw), Tell(c, s, at, raw, CallbackVerify, env);
            && OnlyRow(s, t, p) && (forall now: nat :: CallbackWindow(t, p, now) <==> now < at + c.callbackMs)
            && t.users[p] == s.users[p].(callbackUntil := t.users[p].callbackUntil)
  {
    hide NormalizePhone, IsTelegram, Tell, FinishNamingFx, JoinFx, SetPinFx, ChangePinFx, RecoverFx, RecoverConfirmFx;
    Accounted(c, s, at, raw, ReportSim, env);
    Accounted(c, s, at, raw, CallbackVerify, env);
    assert s.WithUser(NormalizePhone(raw)) == s;
  }

  /** While a risk window is open no larger send is accepted. */
  lemma RiskWindowsKeepSendsSmall(c: Config, s: State, now: nat, p: Phone, amount: nat, payee: string, phone: Option<Phone>)
    requires |c.tiers| == 3 && RiskWindow(s, p, now) && amount > c.simMaxSend
    ensures SendGate(c, s, now, p, amount, payee, phone).0 == Reject
  {
    hide SendGate;
    SendsPassExactly(c, s, now, p, amount, payee, phone);
    CallbacksAreAskedExactly(c, s, now, p, amount, payee, phone);
    GateReleases(c, s, now, p, amount, payee, phone);
  }

  // ----- identity -----

  /** A well-formed id raises the caller to tier one, an accepted SIM attestation to tier two, and the caps are
      those of the new tier; a refused one changes nothing. */
  lemma IdentityRaisesTheCaps(c: Config, s: State, at: nat, raw: string, ok: bool, env: Env)
    requires |c.tiers| == 3 && Caller(s, raw)
    ensures var p, t := NormalizePhone(raw), Tell(c, s, at, raw, VerifyId(ok), env);
            if ok then OnlyRow(s, t, p) && CapsOf(c, t, p) == c.tiers[if s.users[p].tier == 2 then 2 else 1] else t == s
    ensures var p, t := NormalizePhone(raw), Tell(c, s, at, raw, AttestSim(ok), env);
            if ok then OnlyRow(s, t, p) && CapsOf(c, t, p) == c.tiers[2] else t == s
  {
    hide NormalizePhone, IsTelegram, Tell, ServeMoneyFx, ServeOrdersFx;
    Served(c, s, at, raw, VerifyId(ok), env);
    Served(c, s, at, raw, AttestSim(ok), env);
  }

  // ----- the first PIN -----

  /** A named caller without a PIN sets one: it is the PIN, and the claims for the number are released. */
  lemma TheFirstPinCounts(c: Config, s: State, at: nat, raw: string, pin: string, env: Env)
    requires |c.tiers| == 3 && !IsTelegram(NormalizePhone(raw)) && NormalizePhone(raw) != c.escrow
    requires var p := NormalizePhone(raw); p in s.users && s.users[p].name.Some? && s.users[p].pin.None? && p !in s.sessions
    ensures var p, t := NormalizePhone(raw), Tell(c, s, at, raw, SetPinTo(pin), env);
            p in t.users && Onboarded(t.users[p]) && PinMatches(t.users[p], pin) && t.users[p].name == s.users[p].name
  {
    hide NormalizePhone, IsTelegram, Tell, FinishNamingFx, JoinFx, ChangePinFx, RecoverFx, RecoverConfirmFx, RiskFx, CallbackFx, Claims.Fulfil;
    var p := NormalizePhone(raw);
    Accounted(c, s, at, raw, SetPinTo(pin), env);
    assert s.WithUser(p) == s;
    var u := s.PutPin(p, pin).PutPending(p, None);
    assert s.PutPin(p, pin).WithUser(p) == s.PutPin(p, pin);
    FulfilKeepsRow(c, u, at, p, env.payouts);
  }

  lemma FulfilKeepsRow(c: Config, s: State, at: nat, p: Phone, payouts: seq<Outcome>)
    requires p in s.users && p != c.escrow
    ensures var t := Claims.Fulfil(c, s, at, p, payouts).0; p in t.users && t.users[p] == s.users[p]
  {
    hide Claims.PayMany, Claims.WithEscrow;
    var ids := Claims.HeldClaimsOf(s.claims, p);
    if ids != [] {
      Claims.EscrowUserOnly(c, s);
      JobKeepsRows(c, Claims.WithEscrow(c, s), at, ids, Claims.Release(p), payouts, |ids|);
    }
  }

  lemma {:induction false} JobKeepsRows(c: Config, s: State, now: nat, ids: seq<nat>, job: Claims.Job, outcomes: seq<Outcome>, n: nat)
    requires n <= |ids| && forall k | k in ids :: k < |s.claims|
    ensures Claims.PayMany(c, s, now, ids, job, outcomes, n).0.users == s.users
  {
    hide Claims.PayOne;
    if n > 0 {
      JobKeepsRows(c, s, now, ids, job, outcomes, n - 1);
      Claims.PayManyStep(c, s, now, ids, job, outcomes, n);
      PayOneKeepsRows(c, Claims.PayMany(c, s, now, ids, job, outcomes, n - 1).0, now, ids[n - 1], job, Claims.OutcomeAt(outcomes, n - 1));
    }
  }

  lemma PayOneKeepsRows(c: Config, s: State, now: nat, id: nat, job: Claims.Job, o: Outcome)
    requires id < |s.claims|
    ensures Claims.PayOne(c, s, now, id, job, o).0.users == s.users
  {
    hide State.Transfer, State.Bal;
    var k := s.claims[id];
    var to := if job.Release? then job.payee else k.from;
    var pay := Claims.Payable(k.amount, s.Bal(c.escrow), c.reserve);
    if pay > 0 {
      TransferShape(s, c.escrow, WalletOf(to), pay, o);
    }
  }

  // ----- bare digits and cancelling -----

  /** Bare digits are the PIN for whatever is pending; with nothing pending they do nothing. */
  lemma BareDigitsConfirm(c: Config, s: State, at: nat, raw: string, digits: string, env: Env)
    requires |c.tiers| == 3 && Caller(s, raw)
    ensures var p, t := NormalizePhone(raw), Tell(c, s, at, raw, Digits(digits), env);
            t == if p in s.sessions then Tell(c, s, at, raw, ConfirmWith(Some(digits)), env) else s
  {
    hide NormalizePhone, IsTelegram, DispatchFx;
    var p := NormalizePhone(raw);
    var other := Message(Other, None, env);
    if p !in s.sessions {
      OthersDoNothing(c, s, at, p, env);
    }
  }

  lemma OthersDoNothing(c: Config, s: State, at: nat, p: Phone, env: Env)
    requires |c.tiers| == 3 && p in s.users && Onboarded(s.users[p]) && p !in s.sessions
    ensures DispatchFx(c, s, at, p, Message(Other, None, env)).0 == s
  {
    hide AccountFx, ConfirmFx, NameAnswerFx;
    assert s.WithUser(p) == s;
  }

  /** A cancellation empties the slot of its caller and nothing else. */
  lemma CancellingEmptiesTheSlot(c: Config, s: State, at: nat, raw: string, env: Env)
    requires |c.tiers| == 3 && Caller(s, raw)
    ensures Tell(c, s, at, raw, Cancel, env) == s.(sessions := s.sessions - {NormalizePhone(raw)})
  {
    hide NormalizePhone, IsTelegram, Tell, AccountFx, ConfirmFx, GateFx;
    Dispatched(c, s, at, raw, Cancel, env);
  }

  /** Clearing the policy leaves the caller no rule, and nobody else's rules change. */
  lemma ClearingLeavesNoRules(c: Config, s: State, at: nat, raw: string, env: Env)
    requires |c.tiers| == 3 && Caller(s, raw)
    ensures var p, t := NormalizePhone(raw), Tell(c, s, at, raw, ClearPolicy, env);
            t == s.(rules := t.rules) && forall q :: t.Rules(q) == if q == p then [] else s.Rules(q)
  {
    hide NormalizePhone, IsTelegram, Tell, ServeMoneyFx, ServeProfileFx, RevokeRows, ActiveRules;
    Served(c, s, at, raw, ClearPolicy, env);
    forall q ensures ActiveRules(RevokeRows(s.rules, NormalizePhone(raw)), q) == if q == NormalizePhone(raw) then [] else s.Rules(q) {
      RevokedHasNoActive(s.rules, NormalizePhone(raw), q);
    }
  }

  // ----- names, memos, orders -----

  lemma FinishingStores(s: State, p: Phone, name: string)
    requires p in s.users
    ensures var t := FinishNamingFx(s, p, name).0;
            && t == s.(users := t.users, sessions := s.sessions - {p}) && p in t.users
            && t.users[p] == s.users[p].(name := Some(name))
            && forall q | q != p :: (q in t.users <==> q in s.users) && (q in s.users ==> t.users[q] == s.users[q])
  {
    assert s.WithUser(p) == s;
  }

  lemma NamingFinishes(c: Config, s: State, at: nat, p: Phone, name: string, env: Env)
    requires |c.tiers| == 3
    ensures DispatchFx(c, s, at, p, Message(SetName(name), None, env)).0 == FinishNamingFx(s, p, name).0
  {
    hide FinishNamingFx, GateFx, ConfirmFx, SetPinFx, JoinFx, ChangePinFx, RecoverFx, RecoverConfirmFx, RiskFx, CallbackFx;
  }

  /** A given name is the name, the caller owes none any more, and nothing else changes. */
  lemma NamesAreStored(c: Config, s: State, at: nat, raw: string, name: string, env: Env)
    requires |c.tiers| == 3 && !IsTelegram(NormalizePhone(raw)) && NormalizePhone(raw) in s.users
    ensures var p, t := NormalizePhone(raw), Tell(c, s, at, raw, SetName(name), env);
            && t == s.(users := t.users, sessions := s.sessions - {p}) && p in t.users
            && t.users[p] == s.users[p].(name := Some(name))
            && forall q | q != p :: (q in t.users <==> q in s.users) && (q in s.users ==> t.users[q] == s.users[q])
  {
    hide NormalizePhone, IsTelegram, Tell, DispatchFx, FinishNamingFx;
    Dispatched(c, s, at, raw, SetName(name), env);
    NamingFinishes(c, s, at, NormalizePhone(raw), name, env);
    FinishingStores(s, NormalizePhone(raw), name);
  }

  /** A PIN that is set is not replaced by setting one. */
  lemma APinIsNotReplaced(c: Config, s: State, at: nat, raw: string, pin: string, env: Env)
    requires |c.tiers| == 3 && Caller(s, raw)
    ensures Tell(c, s, at, raw, SetPinTo(pin), env) == s
  {
    hide NormalizePhone, IsTelegram, Tell, FinishNamingFx, JoinFx, ChangePinFx, RecoverFx, RecoverConfirmFx, RiskFx, CallbackFx, CompletePinFx;
    Accounted(c, s, at, raw, SetPinTo(pin), env);
    assert s.WithUser(NormalizePhone(raw)) == s;
  }

  /** A voice note rewrites the memo of a pending send, to its first 280 characters, and nothing else. */
  lemma MemosAreAttached(c: Config, s: State, at: nat, raw: string, memo: string)
    requires |c.tiers| == 3
    ensures var p, t := NormalizePhone(raw), Step(c, s, Memoed(at, raw, memo));
            if p in s.sessions && s.sessions[p].PSend? then
              && p in t.sessions && t == s.(sessions := t.sessions) && t.sessions - {p} == s.sessions - {p}
              && t.sessions[p] == s.sessions[p].(memo := t.sessions[p].memo)
              && t.sessions[p].memo <= memo && |t.sessions[p].memo| == if |memo| < 280 then |memo| else 280
            else t == s
  {
    hide NormalizePhone;
    var p, t := NormalizePhone(raw), Step(c, s, Memoed(at, raw, memo));
    if p in s.sessions && s.sessions[p].PSend? {
      assert t.sessions - {p} == s.sessions - {p};
    }
  }

  /** An order of p that is still running. */
  predicate Running(s: State, p: Phone, id: nat) {
    id < |s.orders| && s.orders[id].phone == p && s.orders[id].active
  }

  /** Cancelling a standing order stops exactly that order, and only if it is the caller's own. */
  lemma CancellingStopsOneOrder(c: Config, s: State, at: nat, raw: string, id: nat, env: Env)
    requires |c.tiers| == 3 && Caller(s, raw)
    ensures var p, t := NormalizePhone(raw), Tell(c, s, at, raw, CancelStanding(id), env);
            && t == s.(orders := t.orders)
            && forall q, k :: Running(t, q, k) <==> Running(s, q, k) && !(q == p && k == id)
  {
    hide NormalizePhone, IsTelegram, ServeMoneyFx, ServeProfileFx, Tell;
    Served(c, s, at, raw, CancelStanding(id), env);
  }
}
