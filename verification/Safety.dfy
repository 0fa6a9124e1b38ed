/** Locks and frozen rules are checked when a payment is requested, but the money moves when it is
    confirmed.  Over whole runs the check still holds at the moment of payment, because a phone has
    one pending slot and nothing else of its own can spend in between. */
module Safety {
  import opened Text
  import opened Tables
  import opened Settings
  import opened Policy
  import opened Payees
  import opened Pipeline
  import opened Frames
  import opened Runs
  import opened Effects
  import opened Steps
  import opened Payments

  // ----- rules and shape of pending orders -----

  /** Every rule p has in force accepts the order (a payee without any title is not checked). */
  predicate RulesBind(s: State, p: Phone, m: Pending)
    requires m.PSend?
  {
    m.toLabel == "" || RulesAccept(s, p, m.amount, m.toLabel, m.toPhone)
  }

  /** A send order has the shape `resolvePayee` gives it. */
  predicate WellAddressed(m: Pending)
    requires m.PSend?
  {
    && m.amount > 0
    && (m.pendingClaim ==> m.toPhone.Some? && m.toAddress.None?)
    && (!m.pendingClaim ==> m.toAddress.Some?)
    && (!m.pendingClaim && m.toPhone.Some? ==> m.toAddress == Some(WalletOf(m.toPhone.value)))
  }

  ghost predicate OrderBound(s: State, p: Phone, m: Pending) {
    Guarded(m) ==>
      && p in s.users && Onboarded(s.users[p])
      && (m.PSend? ==> WellAddressed(m))
      && (m.PSend? && KeyOf(m) !in s.idem ==> RulesBind(s, p, m))
  }

  /** The clock is past every row, and the pending order of p is as good as when it was accepted. */
  ghost predicate Bound(s: State, t: nat, p: Phone) {
    && (forall k | 0 <= k < |s.ledger| :: s.ledger[k].at <= t)
    && (p in s.sessions ==> OrderBound(s, p, s.sessions[p]))
  }

  /** Dropping rules and paying someone can only help a payment past the rules. */
  lemma RulesStayBound(s: State, t: State, now: nat, p: Phone, m: Pending)
    requires m.PSend? && RulesBind(s, p, m) && Harmless(s, t, now, p)
    ensures RulesBind(t, p, m)
  {
    var to := CheckedParty(m.toLabel, m.toPhone);
    var more := t.ledger[|s.ledger|..];
    assert s.ledger + more == t.ledger;
    PaidStaysPaid(s.ledger, more, p, to);
    AcceptedMeansNoRuleBroken(s.Rules(p), m.amount, m.toLabel, m.toPhone, s.HasPaid(p, to));
    AcceptedMeansNoRuleBroken(t.Rules(p), m.amount, m.toLabel, m.toPhone, t.HasPaid(p, to));
  }

  lemma HarmlessKeepsBound(s: State, t: State, now: nat, p: Phone)
    requires Bound(s, now, p) && Harmless(s, t, now, p)
    ensures Bound(t, now, p)
  {
    if p in t.sessions && Guarded(t.sessions[p]) {
      var m := s.sessions[p];
      if m.PSend? && m.key !in s.idem {
        RulesStayBound(s, t, now, p, m);
      }
    }
  }

  lemma OpeningKeepsBound(c: Config, s: State, t: State, now: nat, p: Phone, intent: Intent)
    requires |c.tiers| == 3 && Bound(s, now, p) && Opens(c, s, t, now, p, intent)
    ensures Bound(t, now, p)
  {
    var m := t.sessions[p];
    if m.PSend? {
      ResolvedShape(c, s, p, intent.to);
      assert RulesBind(s, p, m);
      assert t.Rules(p) == s.Rules(p) && t.ledger == s.ledger;
    }
  }

  lemma BooksKeepTheClock(s: State, t: State, now: nat, p: Phone, m: Pending)
    requires Money(m) && Books(s, t, now, p, m)
    ensures s.ledger <= t.ledger && forall k | |s.ledger| <= k < |t.ledger| :: t.ledger[k].at == now
  {
  }

  lemma PayingKeepsBound(c: Config, s: State, t: State, now: nat, p: Phone, pin: Option<string>, env: Env)
    requires Bound(s, now, p) && Pays(c, s, t, now, p, pin, env) && c.Ordinary(p)
    ensures Bound(t, now, p)
  {
    PayingSpends(c, s.ClearFails(p), now, p, s.sessions[p], env);
    BooksKeepTheClock(s.ClearFails(p), t, now, p, s.sessions[p]);
  }

  lemma BoundLater(s: State, t: nat, u: nat, p: Phone)
    requires Bound(s, t, p) && t <= u
    ensures Bound(s, u, p)
  {
  }

  lemma StepKeepsBound(c: Config, s: State, i: Input, p: Phone)
    requires c.Valid() && c.Ordinary(p) && FromPeople(c, i) && Rooted(c, s) && Bound(s, i.at, p)
    ensures Bound(Step(c, s, i), i.at, p)
  {
    var t := Step(c, s, i);
    StepHasEffect(c, s, i, p);
    if Harmless(s, t, i.at, p) {
      HarmlessKeepsBound(s, t, i.at, p);
    } else if Leaves(s, t, p) {
    } else if Opens(c, s, t, i.at, p, IntentOf(s, i)) {
      OpeningKeepsBound(c, s, t, i.at, p, IntentOf(s, i));
    } else if Pays(c, s, t, i.at, p, PinOf(s, i), i.m.env) {
      PayingKeepsBound(c, s, t, i.at, p, PinOf(s, i), i.m.env);
    }
  }

  /** After every run, gas or no gas, only set-up callers hold payment orders, and every pending
      send still satisfies the rules in force. */
  lemma {:induction false} RunsAreBound(c: Config, run: seq<Input>, t: seq<State>, k: nat)
    requires Run(c, run, t) && k <= |run|
    ensures Rooted(c, t[k])
    ensures forall p | c.Ordinary(p) :: Bound(t[k], Clock(run, k), p)
  {
    hide Step;
    if k == 0 {
    } else {
      RunsAreBound(c, run, t, k - 1);
      assert Leads(c, run, t, k - 1);
      forall p | c.Ordinary(p)
        ensures Bound(t[k], Clock(run, k), p)
      {
        BoundLater(t[k - 1], Clock(run, k - 1), run[k - 1].at, p);
        StepKeepsBound(c, t[k - 1], run[k - 1], p);
      }
    }
  }

  /** All that is known when step k is taken. */
  lemma StepOfRun(c: Config, run: seq<Input>, t: seq<State>, k: nat)
    requires Run(c, run, t) && k < |run|
    ensures FromPeople(c, run[k]) && t[k + 1] == Step(c, t[k], run[k]) && Clock(run, k) <= run[k].at
    ensures Rooted(c, t[k])
    ensures forall p | c.Ordinary(p) :: Bound(t[k], run[k].at, p)
  {
    hide Step, FromPeople;
    RunsAreBound(c, run, t, k);
    assert Leads(c, run, t, k);
    forall p | c.Ordinary(p) ensures Bound(t[k], run[k].at, p) {
      BoundLater(t[k], Clock(run, k), run[k].at, p);
    }
  }

  // ----- locked savings -----

  /** Spending a leaves the locked savings covered, but for a debt of g. */
  predicate Room(s: State, p: Phone, a: nat, t: nat, g: nat) {
    s.Locked(p, t) == 0 || s.Locked(p, t) + a <= s.Bal(p) + g
  }

  ghost predicate OrderCovered(s: State, t: nat, p: Phone, m: Pending, g: nat) {
    && (m.PLock? ==> s.Locked(p, t) + m.amount <= s.Bal(p) + g)
    && (Money(m) && KeyOf(m) !in s.idem ==> Room(s, p, Cost(m), t, g))
  }

  /** But for a debt of g, the wallet covers the locks now, and still will after the pending order. */
  ghost predicate Covered(s: State, t: nat, p: Phone, g: nat) {
    && s.Locked(p, t) <= s.Bal(p) + g
    && (p in s.sessions ==> OrderCovered(s, t, p, s.sessions[p], g))
  }

  lemma CoveredLater(s: State, t: nat, u: nat, p: Phone, g: nat)
    requires Covered(s, t, p, g) && t <= u
    ensures Covered(s, u, p, g)
  {
    LockedOnlyFalls(s.locks, p, t, u);
  }

  lemma GateLeavesRoom(s: State, now: nat, p: Phone, amount: nat, g: nat)
    requires p in s.users && !LockBlocks(s, p, amount, now) && s.Locked(p, now) <= s.Bal(p) + g
    ensures Room(s, p, amount, now, g)
  {
  }

  lemma OpeningKeepsCovered(c: Config, s: State, t: State, now: nat, p: Phone, intent: Intent, g: nat)
    requires |c.tiers| == 3 && Covered(s, now, p, g) && Opens(c, s, t, now, p, intent)
    ensures Covered(t, now, p, g)
  {
    var m := t.sessions[p];
    ReleaseKeepsLocked(s.locks, p, now, p, now);
    assert t.Locked(p, now) == s.Locked(p, now);
    if Money(m) && (m.PSwap? ==> m.tokenIn == USDC) {
      GateLeavesRoom(s, now, p, Cost(m), g);
    }
  }

  lemma PayingKeepsCovered(c: Config, s: State, t: State, now: nat, p: Phone, pin: Option<string>, env: Env, g: nat)
    requires Covered(s, now, p, g) && Pays(c, s, t, now, p, pin, env) && c.Ordinary(p)
    ensures Covered(t, now, p, g + Gas(s, p, env.outcome))
  {
    hide PayFx, SumLocked;
    PayingSpends(c, s.ClearFails(p), now, p, s.sessions[p], env);
  }

  lemma LockingKeepsCovered(s: State, t: State, now: nat, p: Phone, g: nat)
    requires Covered(s, now, p, g) && Locks(s, t, now, p)
    ensures Covered(t, now, p, g)
  {
    assert t.locks[..|t.locks| - 1] == s.locks;
  }

  /** The gas that the step from s to t can have cost p. */
  ghost function GasPaid(c: Config, s: State, t: State, i: Input, p: Phone): nat {
    if By(s, i, p) && Pays(c, s, t, i.at, p, PinOf(s, i), i.m.env) then Gas(s, p, i.m.env.outcome) else 0
  }

  lemma StepKeepsCovered(c: Config, s: State, i: Input, p: Phone, g: nat)
    requires c.Valid() && c.Ordinary(p) && FromPeople(c, i) && Rooted(c, s)
    requires Covered(s, i.at, p, g)
    ensures Covered(Step(c, s, i), i.at, p, g + GasPaid(c, s, Step(c, s, i), i, p))
  {
    hide Pays, Step, SumLocked;
    var t := Step(c, s, i);
    StepHasEffect(c, s, i, p);
    if Harmless(s, t, i.at, p) {
    } else if Leaves(s, t, p) {
    } else if Opens(c, s, t, i.at, p, IntentOf(s, i)) {
      OpeningKeepsCovered(c, s, t, i.at, p, IntentOf(s, i), g);
    } else if Pays(c, s, t, i.at, p, PinOf(s, i), i.m.env) {
      PayingKeepsCovered(c, s, t, i.at, p, PinOf(s, i), i.m.env, g);
    } else if Locks(s, t, i.at, p) {
      LockingKeepsCovered(s, t, i.at, p, g);
    }
  }

  /** The gas that the first k steps can have cost p. */
  ghost function GasOfRun(c: Config, run: seq<Input>, t: seq<State>, k: nat, p: Phone): nat
    requires |t| == |run| + 1 && k <= |run|
  {
    if k == 0 then 0 else GasOfRun(c, run, t, k - 1, p) + GasPaid(c, t[k - 1], t[k], run[k - 1], p)
  }

  lemma {:induction false} RunsAreCovered(c: Config, run: seq<Input>, t: seq<State>, k: nat, p: Phone)
    requires Run(c, run, t) && k <= |run| && c.Ordinary(p)
    ensures Covered(t[k], Clock(run, k), p, GasOfRun(c, run, t, k, p))
  {
    hide Step, FromPeople, GasPaid;
    if k > 0 {
      RunsAreCovered(c, run, t, k - 1, p);
      StepOfRun(c, run, t, k - 1);
      var g := GasOfRun(c, run, t, k - 1, p);
      CoveredLater(t[k - 1], Clock(run, k - 1), run[k - 1].at, p, g);
      StepKeepsCovered(c, t[k - 1], run[k - 1], p, g);
    }
  }

  /** In every state of every run, what a phone has locked and not yet matured is still in its wallet,
      but for the gas that its own payments have burned. */
  lemma LockedSavingsAreCoveredUpToGas(c: Config, run: seq<Input>, t: seq<State>, k: nat, p: Phone)
    requires Run(c, run, t) && k <= |run| && c.Ordinary(p)
    ensures t[k].Locked(p, Clock(run, k)) <= t[k].Bal(p) + GasOfRun(c, run, t, k, p)
  {
    RunsAreCovered(c, run, t, k, p);
  }

  /** Nobody pays gas: the paymaster sponsors it. */
  ghost predicate GasFree(i: Input) {
    i.Said? ==> i.m.env.outcome.fee == 0
  }

  ghost predicate AllGasFree(run: seq<Input>) {
    forall k | 0 <= k < |run| :: GasFree(run[k])
  }

  lemma {:induction false} SponsoredRunsCostNoGas(c: Config, run: seq<Input>, t: seq<State>, k: nat, p: Phone)
    requires |t| == |run| + 1 && k <= |run| && AllGasFree(run)
    ensures GasOfRun(c, run, t, k, p) == 0
  {
    hide Pays;
    if k > 0 {
      SponsoredRunsCostNoGas(c, run, t, k - 1, p);
      assert GasFree(run[k - 1]);
    }
  }

  /** Savings locks are safe: in every state of every run with sponsored gas, what a phone has locked
      and not yet matured is still in its wallet. */
  lemma LockedSavingsAreCovered(c: Config, run: seq<Input>, t: seq<State>, k: nat, p: Phone)
    requires Run(c, run, t) && AllGasFree(run) && k <= |run| && c.Ordinary(p)
    ensures t[k].Locked(p, Clock(run, k)) <= t[k].Bal(p)
  {
    LockedSavingsAreCoveredUpToGas(c, run, t, k, p);
    SponsoredRunsCostNoGas(c, run, t, k, p);
  }
}
