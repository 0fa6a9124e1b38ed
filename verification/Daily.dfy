/** The daily cap over whole runs.  The send gate counts sends and holds but skips the cap for sends
    above the soft limit; the swap and top-up gates count everything.  What the two gates together
    guarantee is twice the daily cap, not the cap itself. */
module Daily {
  import opened Text
  import opened Tables
  import opened Settings
  import opened Policy
  import opened Payees
  import opened Pipeline
  import opened Frames
  import opened Runs
  import opened Effects
  import opened Steps
  import opened Payments
  import opened Safety
  import opened Identity

  /** Sends and holds of p on one day that are at or under the soft cap. */
  function SumSoft(rows: seq<LedgerRow>, p: Phone, day: nat, cap: nat): nat {
    if |rows| == 0 then 0
    else
      var r := rows[|rows| - 1];
      SumSoft(rows[..|rows| - 1], p, day, cap)
      + if r.phone == p && (r.kind == Send || r.kind == EscrowHold) && DayOf(r.at) == day && r.amount <= cap then r.amount else 0
  }

  /** Swaps out of USDC and airtime of p on one day. */
  function SumOther(rows: seq<LedgerRow>, p: Phone, day: nat): nat {
    SumKind(rows, p, Swap, day) + SumKind(rows, p, Airtime, day)
  }

  function SumSends(rows: seq<LedgerRow>, p: Phone, day: nat): nat {
    SumKind(rows, p, Send, day) + SumKind(rows, p, EscrowHold, day)
  }

  lemma {:induction false} SoftAtMostSent(rows: seq<LedgerRow>, p: Phone, day: nat, cap: nat)
    ensures SumSoft(rows, p, day, cap) <= SumSends(rows, p, day)
  {
    if |rows| > 0 {
      SoftAtMostSent(rows[..|rows| - 1], p, day, cap);
    }
  }

  lemma {:induction false} SoftRowsOfOthers(rows: seq<LedgerRow>, more: seq<LedgerRow>, p: Phone, day: nat, cap: nat)
    requires forall i | 0 <= i < |more| :: more[i].phone == p ==> !Outflow(more[i].kind)
    ensures SumSoft(rows + more, p, day, cap) == SumSoft(rows, p, day, cap)
  {
    if more == [] {
      assert rows + more == rows;
    } else {
      SoftRowsOfOthers(rows, more[..|more| - 1], p, day, cap);
      assert (rows + more)[..|rows + more| - 1] == rows + more[..|more| - 1];
    }
  }

  /** Rows that are no outflow of p change none of its day sums. */
  lemma SumsOfOthers(rows: seq<LedgerRow>, more: seq<LedgerRow>, p: Phone, day: nat, cap: nat)
    requires forall i | 0 <= i < |more| :: more[i].phone == p ==> !Outflow(more[i].kind)
    ensures SumSoft(rows + more, p, day, cap) == SumSoft(rows, p, day, cap)
    ensures SumSends(rows + more, p, day) == SumSends(rows, p, day)
    ensures SumOther(rows + more, p, day) == SumOther(rows, p, day)
  {
    SoftRowsOfOthers(rows, more, p, day, cap);
    RowsOfOthers(rows, more, p, Send, day);
    RowsOfOthers(rows, more, p, EscrowHold, day);
    RowsOfOthers(rows, more, p, Swap, day);
    RowsOfOthers(rows, more, p, Airtime, day);
  }

  lemma {:induction false} NothingYetToday(rows: seq<LedgerRow>, p: Phone, kind: Kind, day: nat)
    requires forall i | 0 <= i < |rows| :: DayOf(rows[i].at) < day
    ensures SumKind(rows, p, kind, day) == 0
  {
    if |rows| > 0 {
      NothingYetToday(rows[..|rows| - 1], p, kind, day);
    }
  }

  /** A new row raises each sum by what it stands for. */
  lemma OneMoreRow(rows: seq<LedgerRow>, r: LedgerRow, p: Phone, day: nat, cap: nat)
    requires r.phone == p
    ensures var hit := if DayOf(r.at) == day then r.amount else 0;
            && SumSoft(rows + [r], p, day, cap)
               == SumSoft(rows, p, day, cap) + (if (r.kind == Send || r.kind == EscrowHold) && r.amount <= cap then hit else 0)
            && SumOther(rows + [r], p, day) == SumOther(rows, p, day) + (if r.kind == Swap || r.kind == Airtime then hit else 0)
  {
    assert (rows + [r])[..|rows + [r]| - 1] == rows;
  }

  // ----- the order and the ledger -----

  /** The pending order still fits under today's cap, the way its gate counted it. */
  ghost predicate OrderFits(s: State, t: nat, p: Phone, m: Pending, lim: Limits) {
    Money(m) && KeyOf(m) !in s.idem ==>
      && (m.PSend? && m.amount <= lim.perTx ==> SumSends(s.ledger, p, DayOf(t)) + m.amount <= lim.daily)
      && (!m.PSend? && Cost(m) > 0 ==> SumSends(s.ledger, p, DayOf(t)) + SumOther(s.ledger, p, DayOf(t)) + Cost(m) <= lim.daily)
  }

  ghost predicate LedgerFits(s: State, p: Phone, day: nat, lim: Limits) {
    SumSoft(s.ledger, p, day, lim.perTx) <= lim.daily && SumOther(s.ledger, p, day) <= lim.daily
  }

  /** On the day in question the pending order fits, and so does what the ledger says of that day. */
  ghost predicate Fits(s: State, t: nat, p: Phone, lim: Limits, day: nat) {
    && (DayOf(t) == day && p in s.sessions ==> OrderFits(s, t, p, s.sessions[p], lim))
    && LedgerFits(s, p, day, lim)
  }

  lemma HarmlessKeepsFits(s: State, t: State, now: nat, p: Phone, lim: Limits, day: nat)
    requires Fits(s, now, p, lim, day) && Harmless(s, t, now, p)
    ensures Fits(t, now, p, lim, day)
  {
    var more := t.ledger[|s.ledger|..];
    assert t.ledger == s.ledger + more;
    SumsOfOthers(s.ledger, more, p, DayOf(now), lim.perTx);
    SumsOfOthers(s.ledger, more, p, day, lim.perTx);
  }

  lemma OpeningKeepsFits(c: Config, s: State, t: State, now: nat, p: Phone, intent: Intent, lim: Limits, day: nat)
    requires |c.tiers| == 3 && Fits(s, now, p, lim, day) && Opens(c, s, t, now, p, intent)
    requires DayOf(now) == day ==> lim == LimitsFor(c, s.Tier(p))
    ensures Fits(t, now, p, lim, day)
  {
    assert SentToday(s, p, now) == SumSends(s.ledger, p, DayOf(now));
    assert SpentToday(s, p, now) == SumSends(s.ledger, p, DayOf(now)) + SumOther(s.ledger, p, DayOf(now));
  }

  /** One payment keeps the day's sums under the cap. */
  lemma PaymentKeepsLedgerFits(s: State, t: State, now: nat, p: Phone, m: Pending, lim: Limits, day: nat)
    requires Money(m) && Books(s, t, now, p, m) && LedgerFits(s, p, day, lim)
    requires KeyOf(m) !in s.idem && (DayOf(now) == day ==> OrderFits(s, now, p, m, lim))
    ensures LedgerFits(t, p, day, lim)
  {
    if t.ledger != s.ledger {
      var r := BookedRow(p, m, now);
      OneMoreRow(s.ledger, r, p, day, lim.perTx);
      SoftAtMostSent(s.ledger, p, day, lim.perTx);
      if t.ledger != s.ledger + [r] {
        SumsOfOthers(s.ledger + [r], [LedgerRow(m.toPhone.value, Receive, m.amount, Some(p), now)], p, day, lim.perTx);
      }
    }
  }

  lemma PayingKeepsFits(c: Config, s: State, t: State, now: nat, p: Phone, pin: Option<string>, env: Env, lim: Limits, day: nat)
    requires Fits(s, now, p, lim, day) && Pays(c, s, t, now, p, pin, env) && c.Ordinary(p)
    ensures Fits(t, now, p, lim, day)
  {
    hide PayFx;
    var m := s.sessions[p];
    PayingSpends(c, s.ClearFails(p), now, p, m, env);
    PaymentKeepsLedgerFits(s, t, now, p, m, lim, day);
  }

  lemma LockingKeepsFits(s: State, t: State, now: nat, p: Phone, lim: Limits, day: nat)
    requires Fits(s, now, p, lim, day) && Locks(s, t, now, p)
    ensures Fits(t, now, p, lim, day)
  {
    OneMoreRow(s.ledger, LedgerRow(p, SavingsLock, s.sessions[p].amount, None, now), p, day, lim.perTx);
  }

  lemma StepKeepsFits(c: Config, s: State, i: Input, p: Phone, lim: Limits, day: nat)
    requires c.Valid() && c.Ordinary(p) && FromPeople(c, i) && Rooted(c, s)
    requires Fits(s, i.at, p, lim, day) && (DayOf(i.at) == day ==> lim == LimitsFor(c, s.Tier(p)))
    ensures Fits(Step(c, s, i), i.at, p, lim, day)
  {
    hide Step, PayFx;
    var t := Step(c, s, i);
    StepHasEffect(c, s, i, p);
    if Harmless(s, t, i.at, p) {
      HarmlessKeepsFits(s, t, i.at, p, lim, day);
    } else if Leaves(s, t, p) {
    } else if Opens(c, s, t, i.at, p, IntentOf(s, i)) {
      OpeningKeepsFits(c, s, t, i.at, p, IntentOf(s, i), lim, day);
    } else if Pays(c, s, t, i.at, p, PinOf(s, i), i.m.env) {
      PayingKeepsFits(c, s, t, i.at, p, PinOf(s, i), i.m.env, lim, day);
    } else if Locks(s, t, i.at, p) {
      LockingKeepsFits(s, t, i.at, p, lim, day);
    }
  }

  // ----- orders that wait overnight -----

  /** Caps that make sense: a soft cap is within its daily cap, and a higher tier has no lower daily cap. */
  predicate RisingCaps(c: Config)
    requires |c.tiers| == 3
  {
    && c.tiers[0].perTx <= c.tiers[0].daily && c.tiers[1].perTx <= c.tiers[1].daily && c.tiers[2].perTx <= c.tiers[2].daily
    && c.tiers[0].daily <= c.tiers[1].daily <= c.tiers[2].daily
  }

  /** A pending swap or top-up is within the daily cap of its owner's tier. */
  ghost predicate OrderModest(c: Config, s: State, p: Phone)
    requires |c.tiers| == 3
  {
    p in s.sessions && Money(s.sessions[p]) && KeyOf(s.sessions[p]) !in s.idem && !s.sessions[p].PSend? ==>
      Cost(s.sessions[p]) <= LimitsFor(c, s.Tier(p)).daily
  }

  lemma OpeningIsModest(c: Config, s: State, t: State, now: nat, p: Phone, intent: Intent)
    requires |c.tiers| == 3 && Opens(c, s, t, now, p, intent)
    ensures OrderModest(c, t, p)
  {
    hide SumKind, SumLocked, SumTo, ReleaseRows, ActiveRules, Resolve;
  }

  lemma StepKeepsModest(c: Config, s: State, i: Input, p: Phone)
    requires c.Valid() && RisingCaps(c) && c.Ordinary(p) && FromPeople(c, i) && Rooted(c, s) && OrderModest(c, s, p)
    requires s.Tier(p) <= Step(c, s, i).Tier(p)
    ensures OrderModest(c, Step(c, s, i), p)
  {
    hide Step, Pays, Opens;
    var t := Step(c, s, i);
    StepHasEffect(c, s, i, p);
    if Harmless(s, t, i.at, p) || Leaves(s, t, p) {
    } else if Opens(c, s, t, i.at, p, IntentOf(s, i)) {
      OpeningIsModest(c, s, t, i.at, p, IntentOf(s, i));
    } else if Pays(c, s, t, i.at, p, PinOf(s, i), i.m.env) {
      PaidOrdersAreUsedUp(c, s, t, i.at, p, PinOf(s, i), i.m.env);
    }
  }

  lemma PaidOrdersAreUsedUp(c: Config, s: State, t: State, now: nat, p: Phone, pin: Option<string>, env: Env)
    requires c.Ordinary(p) && Pays(c, s, t, now, p, pin, env)
    ensures p in t.sessions && Money(t.sessions[p]) ==> KeyOf(t.sessions[p]) in t.idem
  {
    hide PayFx;
    PayingSpends(c, s.ClearFails(p), now, p, s.sessions[p], env);
  }

  lemma {:induction false} OrdersAreModest(c: Config, run: seq<Input>, t: seq<State>, k: nat, p: Phone)
    requires Run(c, run, t) && RisingCaps(c) && k <= |run| && c.Ordinary(p)
    ensures OrderModest(c, t[k], p)
  {
    hide Step, FromPeople;
    if k > 0 {
      OrdersAreModest(c, run, t, k - 1, p);
      StepOfRun(c, run, t, k - 1);
      TiersNeverFall(c, run, t, k - 1, k, p);
      StepKeepsModest(c, t[k - 1], run[k - 1], p);
    }
  }

  /** The pending order, taken alone, is within the daily cap. */
  ghost predicate Alone(s: State, p: Phone, lim: Limits) {
    p in s.sessions && Money(s.sessions[p]) && KeyOf(s.sessions[p]) !in s.idem ==>
      && (s.sessions[p].PSend? && s.sessions[p].amount <= lim.perTx ==> s.sessions[p].amount <= lim.daily)
      && (!s.sessions[p].PSend? && Cost(s.sessions[p]) > 0 ==> Cost(s.sessions[p]) <= lim.daily)
  }

  lemma StepKeepsAlone(c: Config, s: State, i: Input, p: Phone, lim: Limits)
    requires c.Valid() && c.Ordinary(p) && FromPeople(c, i) && Rooted(c, s) && Alone(s, p, lim) && lim == LimitsFor(c, s.Tier(p))
    ensures Alone(Step(c, s, i), p, lim)
  {
    hide Step, Pays, Opens;
    var t := Step(c, s, i);
    StepHasEffect(c, s, i, p);
    if Harmless(s, t, i.at, p) || Leaves(s, t, p) {
    } else if Opens(c, s, t, i.at, p, IntentOf(s, i)) {
      OpeningIsAlone(c, s, t, i.at, p, IntentOf(s, i), lim);
    } else if Pays(c, s, t, i.at, p, PinOf(s, i), i.m.env) {
      PaidOrdersAreUsedUp(c, s, t, i.at, p, PinOf(s, i), i.m.env);
    }
  }

  lemma OpeningIsAlone(c: Config, s: State, t: State, now: nat, p: Phone, intent: Intent, lim: Limits)
    requires |c.tiers| == 3 && Opens(c, s, t, now, p, intent) && lim == LimitsFor(c, s.Tier(p))
    ensures Alone(t, p, lim)
  {
    hide SumKind, SumLocked, SumTo, ReleaseRows, ActiveRules, Resolve;
  }

  /** At limits that never changed no order needs caps that make sense. */
  lemma {:induction false} SteadyOrdersAreAlone(c: Config, run: seq<Input>, t: seq<State>, k: nat, p: Phone, lim: Limits)
    requires Run(c, run, t) && k <= |run| && c.Ordinary(p) && (forall j | 0 <= j < k :: LimitsFor(c, t[j].Tier(p)) == lim)
    ensures Alone(t[k], p, lim)
  {
    hide Step, FromPeople, LimitsFor;
    if k > 0 {
      SteadyOrdersAreAlone(c, run, t, k - 1, p, lim);
      StepOfRun(c, run, t, k - 1);
      StepKeepsAlone(c, t[k - 1], run[k - 1], p, lim);
    }
  }

  /** Nothing has been spent yet today, so an order that waited overnight fits. */
  lemma WaitingOrderFits(s: State, t: nat, u: nat, p: Phone, lim: Limits)
    requires Alone(s, p, lim) && DayOf(t) < DayOf(u) && forall k | 0 <= k < |s.ledger| :: s.ledger[k].at <= t
    ensures p in s.sessions ==> OrderFits(s, u, p, s.sessions[p], lim)
  {
    forall kind ensures SumKind(s.ledger, p, kind, DayOf(u)) == 0 {
      NothingYetToday(s.ledger, p, kind, DayOf(u));
    }
  }

  /** The caps that ship make sense. */
  lemma ShippedCapsRise(c: Config)
    requires c.tiers == DEFAULT_TIERS
    ensures RisingCaps(c)
  {
  }

  // ----- runs -----

  /** During the day, in the first k steps, the limits of p are lim. */
  ghost predicate Steady(c: Config, run: seq<Input>, t: seq<State>, k: nat, p: Phone, lim: Limits, day: nat)
    requires |c.tiers| == 3 && k <= |run| && |t| == |run| + 1
  {
    forall j | 0 <= j < k && DayOf(run[j].at) == day :: LimitsFor(c, t[j].Tier(p)) == lim
  }

  /** The limits stand during the day, and orders from before it were held to caps no higher: because the
      limits never changed, or because caps make sense and tiers never fall. */
  ghost predicate Stands(c: Config, run: seq<Input>, t: seq<State>, k: nat, p: Phone, lim: Limits, day: nat)
    requires |c.tiers| == 3 && k <= |run| && |t| == |run| + 1
  {
    && Steady(c, run, t, k, p, lim, day)
    && (RisingCaps(c) || forall j | 0 <= j < k :: LimitsFor(c, t[j].Tier(p)) == lim)
  }

  lemma WaitingOrdersAreAlone(c: Config, run: seq<Input>, t: seq<State>, k: nat, p: Phone, lim: Limits, day: nat)
    requires Run(c, run, t) && k < |run| && c.Ordinary(p) && Stands(c, run, t, k + 1, p, lim, day) && DayOf(run[k].at) == day
    ensures Alone(t[k], p, lim)
  {
    hide Step, FromPeople;
    if RisingCaps(c) {
      OrdersAreModest(c, run, t, k, p);
      assert LimitsFor(c, t[k].Tier(p)) == lim;
    } else {
      SteadyOrdersAreAlone(c, run, t, k, p, lim);
    }
  }

  /** What is known when step k is about to be taken. */
  lemma StepStartsFit(c: Config, run: seq<Input>, t: seq<State>, k: nat, p: Phone, lim: Limits, day: nat)
    requires Run(c, run, t) && k < |run| && c.Ordinary(p) && Stands(c, run, t, k + 1, p, lim, day)
    requires Fits(t[k], Clock(run, k), p, lim, day)
    ensures Fits(t[k], run[k].at, p, lim, day)
  {
    hide Step, FromPeople, LimitsFor;
    RunsAreBound(c, run, t, k);
    assert Bound(t[k], Clock(run, k), p);
    assert Clock(run, k) <= run[k].at;
    if DayOf(run[k].at) == day && DayOf(Clock(run, k)) != day {
      WaitingOrdersAreAlone(c, run, t, k, p, lim, day);
      EarlierDay(Clock(run, k), run[k].at);
      WaitingOrderFits(t[k], Clock(run, k), run[k].at, p, lim);
    }
  }

  lemma EarlierDay(t: nat, u: nat)
    requires t <= u && DayOf(t) != DayOf(u)
    ensures DayOf(t) < DayOf(u)
  {
  }

  lemma {:induction false} RunsFit(c: Config, run: seq<Input>, t: seq<State>, k: nat, p: Phone, lim: Limits, day: nat)
    requires Run(c, run, t) && k <= |run| && c.Ordinary(p) && Stands(c, run, t, k, p, lim, day)
    ensures Fits(t[k], Clock(run, k), p, lim, day)
  {
    hide Step, FromPeople, LimitsFor;
    if k > 0 {
      RunsFit(c, run, t, k - 1, p, lim, day);
      StepStartsFit(c, run, t, k - 1, p, lim, day);
      StepOfRun(c, run, t, k - 1);
      StepKeepsFits(c, t[k - 1], run[k - 1], p, lim, day);
    }
  }

  /** On every day of every run on which the limits stand, the sends and holds at or under the soft cap
      total at most the daily cap, swaps out of USDC and airtime total at most the daily cap, and so all
      of these together at most twice the daily cap. */
  lemma DailySpendingIsBounded(c: Config, run: seq<Input>, t: seq<State>, k: nat, p: Phone, lim: Limits, day: nat)
    requires Run(c, run, t) && k <= |run| && c.Ordinary(p) && Stands(c, run, t, k, p, lim, day)
    ensures SumSoft(t[k].ledger, p, day, lim.perTx) <= lim.daily
    ensures SumOther(t[k].ledger, p, day) <= lim.daily
    ensures SumSoft(t[k].ledger, p, day, lim.perTx) + SumOther(t[k].ledger, p, day) <= 2 * lim.daily
  {
    RunsFit(c, run, t, k, p, lim, day);
  }

  // ----- when the cap itself holds -----

  /** All that the caps are about: small sends and holds, swaps out of USDC and airtime. */
  function SpentOn(s: State, p: Phone, day: nat, lim: Limits): nat {
    SumSoft(s.ledger, p, day, lim.perTx) + SumOther(s.ledger, p, day)
  }

  /** The step books a send or hold at or under the soft cap on that day. */
  ghost predicate SmallSend(c: Config, s: State, t: State, i: Input, p: Phone, lim: Limits, day: nat) {
    && DayOf(i.at) == day && By(s, i, p) && Pays(c, s, t, i.at, p, PinOf(s, i), i.m.env)
    && s.sessions[p].PSend? && s.sessions[p].amount <= lim.perTx && t.ledger != s.ledger
  }

  /** A payment raises the day's total by what it books. */
  lemma PaymentAddsUp(s: State, t: State, now: nat, p: Phone, m: Pending, lim: Limits, day: nat)
    requires Money(m) && Books(s, t, now, p, m)
    ensures var counted := t.ledger != s.ledger && DayOf(now) == day && (m.PSend? ==> m.amount <= lim.perTx);
            SpentOn(t, p, day, lim) == SpentOn(s, p, day, lim) + if counted then Cost(m) else 0
  {
    if t.ledger != s.ledger {
      var r := BookedRow(p, m, now);
      OneMoreRow(s.ledger, r, p, day, lim.perTx);
      if t.ledger != s.ledger + [r] {
        SumsOfOthers(s.ledger + [r], [LedgerRow(m.toPhone.value, Receive, m.amount, Some(p), now)], p, day, lim.perTx);
      }
    }
  }

  lemma PayingAddsUp(c: Config, s: State, t: State, i: Input, p: Phone, lim: Limits, day: nat)
    requires c.Ordinary(p) && By(s, i, p) && Pays(c, s, t, i.at, p, PinOf(s, i), i.m.env) && Fits(s, i.at, p, lim, day)
    ensures if SmallSend(c, s, t, i, p, lim, day) then SpentOn(t, p, day, lim) == SpentOn(s, p, day, lim) + s.sessions[p].amount
            else SpentOn(s, p, day, lim) <= lim.daily ==> SpentOn(t, p, day, lim) <= lim.daily
  {
    hide PayFx;
    var m := s.sessions[p];
    PayingSpends(c, s.ClearFails(p), i.at, p, m, i.m.env);
    PaymentAddsUp(s, t, i.at, p, m, lim, day);
    SoftAtMostSent(s.ledger, p, day, lim.perTx);
  }

  /** Any step of another kind leaves the day's total alone. */
  lemma OtherStepsAddNothing(c: Config, s: State, t: State, i: Input, p: Phone, lim: Limits, day: nat)
    requires |c.tiers| == 3 && Effect(c, s, t, i, p)
    requires By(s, i, p) ==> !Pays(c, s, t, i.at, p, PinOf(s, i), i.m.env)
    ensures SpentOn(t, p, day, lim) == SpentOn(s, p, day, lim)
  {
    hide Pays, SumKind, SumSoft, Accepted, FreezeRows, RevokeRows, ReleaseRows, SumLocked, ActiveRules;
    if Harmless(s, t, i.at, p) {
      var more := t.ledger[|s.ledger|..];
      assert t.ledger == s.ledger + more;
      SumsOfOthers(s.ledger, more, p, day, lim.perTx);
    } else if Leaves(s, t, p) {
    } else if Locks(s, t, i.at, p) {
      OneMoreRow(s.ledger, LedgerRow(p, SavingsLock, s.sessions[p].amount, None, i.at), p, day, lim.perTx);
    }
  }

  /** One step: only a small send can take the day's total past the cap, and it adds its amount. */
  lemma StepAddsUp(c: Config, s: State, i: Input, p: Phone, lim: Limits, day: nat)
    requires c.Valid() && c.Ordinary(p) && FromPeople(c, i) && Rooted(c, s) && Fits(s, i.at, p, lim, day)
    ensures var t := Step(c, s, i);
            if SmallSend(c, s, t, i, p, lim, day) then SpentOn(t, p, day, lim) == SpentOn(s, p, day, lim) + s.sessions[p].amount
            else SpentOn(s, p, day, lim) <= lim.daily ==> SpentOn(t, p, day, lim) <= lim.daily
  {
    hide Step, Pays, Effect, SpentOn, Fits;
    var t := Step(c, s, i);
    StepHasEffect(c, s, i, p);
    if By(s, i, p) && Pays(c, s, t, i.at, p, PinOf(s, i), i.m.env) {
      PayingAddsUp(c, s, t, i, p, lim, day);
    } else {
      OtherStepsAddNothing(c, s, t, i, p, lim, day);
    }
  }

  /** Exactly when a day of a run stays within the daily cap itself: when each small send, at the moment
      it is paid, still fits beside everything spent that day, swaps and airtime included. */
  lemma {:induction false} TheCapHoldsExactlyWhenSendsFit(c: Config, run: seq<Input>, t: seq<State>, k: nat, p: Phone, lim: Limits, day: nat)
    requires Run(c, run, t) && k <= |run| && c.Ordinary(p) && Stands(c, run, t, k, p, lim, day)
    ensures (forall j | 0 <= j <= k :: SpentOn(t[j], p, day, lim) <= lim.daily)
       <==> (forall j | 0 <= j < k && SmallSend(c, t[j], t[j + 1], run[j], p, lim, day) ::
               SpentOn(t[j], p, day, lim) + t[j].sessions[p].amount <= lim.daily)
  {
    hide Step, FromPeople, SmallSend, SpentOn, LimitsFor;
    if k == 0 {
      NothingSpentYet(p, day, lim);
    } else {
      TheCapHoldsExactlyWhenSendsFit(c, run, t, k - 1, p, lim, day);
      RunsFit(c, run, t, k - 1, p, lim, day);
      StepStartsFit(c, run, t, k - 1, p, lim, day);
      StepOfRun(c, run, t, k - 1);
      StepAddsUp(c, t[k - 1], run[k - 1], p, lim, day);
    }
  }

  lemma NothingSpentYet(p: Phone, day: nat, lim: Limits)
    ensures SpentOn(EMPTY, p, day, lim) == 0
  {
  }
}
