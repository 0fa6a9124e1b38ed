/** What the policy gate lets through, exactly: each gate as one condition on ledger sums, balance,
    locks, rules and windows (orchestrator/src/lib/policy.ts), without the order of its tests. */
module Gates {
  import opened Text
  import opened Tables
  import opened Settings
  import opened Policy

  // ----- the tables behind the gate -----

  /** A payee was paid before if some row of a send or hold to it carries money. */
  lemma {:induction false} PaidBeforeMeansARow(s: State, p: Phone, to: string)
    ensures s.HasPaid(p, to)
       <==> exists r :: r in s.ledger && r.phone == p && (r.kind == Send || r.kind == EscrowHold) && r.counterparty == Some(to) && r.amount > 0
    decreases |s.ledger|
  {
    if |s.ledger| > 0 {
      var n := |s.ledger| - 1;
      PaidBeforeMeansARow(s.(ledger := s.ledger[..n]), p, to);
      assert forall r :: r in s.ledger <==> r in s.ledger[..n] || r == s.ledger[n];
    }
  }

  /** A rule is in force for p if some active row of p holds it. */
  lemma {:induction false} RulesInForce(rows: seq<RuleRow>, p: Phone, rule: FrozenRule)
    ensures rule in ActiveRules(rows, p) <==> RuleRow(p, rule, true) in rows
  {
    if |rows| > 0 {
      var n := |rows| - 1;
      RulesInForce(rows[..n], p, rule);
      assert forall r :: r in rows <==> r in rows[..n] || r == rows[n];
      assert rows[n] == RuleRow(p, rule, true) <==> rows[n].phone == p && rows[n].active && rows[n].rule == rule;
    }
  }

  /** A savings lock closed until `until` holds back its amount before that moment and nothing from then on. */
  lemma LocksHoldUntilTheyMature(s: State, p: Phone, amount: nat, until: nat, now: nat)
    ensures s.(locks := s.locks + [LockRow(p, amount, until, true)]).Locked(p, now) == s.Locked(p, now) + if now < until then amount else 0
  {
    var row := LockRow(p, amount, until, true);
    assert (s.locks + [row])[..|s.locks|] == s.locks;
  }

  // ----- frozen rules -----

  /** Every per-transfer cap in force allows the amount. */
  ghost predicate UnderEveryCap(rules: seq<FrozenRule>, amount: nat) {
    forall r | r in rules && r.kind == MaxPerTx && r.maxUsdc.Some? :: amount <= r.maxUsdc.value
  }

  /** So does every cap for new payees. */
  ghost predicate UnderEveryFirstCap(rules: seq<FrozenRule>, amount: nat) {
    forall r | r in rules && r.kind == MaxNewPayee && r.maxUsdc.Some? :: amount <= r.maxUsdc.value
  }

  /** The payee's title contains the text in any case, or its number contains the digits of the text. */
  predicate Mentions(text: string, payee: string, phone: Option<Phone>) {
    || Includes(Lower(payee), Lower(text))
    || (phone.Some? && phone.value != "" && Includes(phone.value, Digits(Lower(text))))
  }

  ghost predicate DeniedByNone(rules: seq<FrozenRule>, payee: string, phone: Option<Phone>) {
    forall r | r in rules && r.kind == DenyLabel && r.party.Some? && r.party.value != "" :: !Mentions(r.party.value, payee, phone)
  }

  /** A payment passes the frozen rules exactly if it is under every per-transfer cap, under every new-payee
      cap unless the payee was paid before, and its payee is denied by none. */
  lemma RulesAcceptExactly(s: State, p: Phone, amount: nat, payee: string, phone: Option<Phone>)
    ensures RulesAccept(s, p, amount, payee, phone)
       <==> && UnderEveryCap(s.Rules(p), amount)
            && (s.HasPaid(p, CheckedParty(payee, phone)) || UnderEveryFirstCap(s.Rules(p), amount))
            && DeniedByNone(s.Rules(p), payee, phone)
  {
    var rules, paid := s.Rules(p), s.HasPaid(p, CheckedParty(payee, phone));
    hide Mentions;
    AcceptedMeansNoRuleBroken(rules, amount, payee, phone, paid);
    forall r | r in rules
      ensures Breaks(r, amount, payee, phone, paid)
         <==> || (r.kind == MaxPerTx && r.maxUsdc.Some? && amount > r.maxUsdc.value)
              || (r.kind == MaxNewPayee && r.maxUsdc.Some? && !paid && amount > r.maxUsdc.value)
              || (r.kind == DenyLabel && r.party.Some? && r.party.value != "" && Mentions(r.party.value, payee, phone))
    {
      BreakingARule(r, amount, payee, phone, paid);
    }
  }

  lemma BreakingARule(r: FrozenRule, amount: nat, payee: string, phone: Option<Phone>, paid: bool)
    ensures Breaks(r, amount, payee, phone, paid)
       <==> || (r.kind == MaxPerTx && r.maxUsdc.Some? && amount > r.maxUsdc.value)
            || (r.kind == MaxNewPayee && r.maxUsdc.Some? && !paid && amount > r.maxUsdc.value)
            || (r.kind == DenyLabel && r.party.Some? && r.party.value != "" && Mentions(r.party.value, payee, phone))
  {
    assert r.party.Some? ==> |Lower(r.party.value)| == |r.party.value|;
  }

  // ----- the gates -----

  /** The caps of p's identity tier; strangers have tier 0. */
  function CapsOf(c: Config, s: State, p: Phone): Limits
    requires |c.tiers| == 3
  {
    c.tiers[if p in s.users then s.users[p].tier else 0]
  }

  lemma CapsAreLimits(c: Config, s: State, p: Phone)
    requires |c.tiers| == 3
    ensures LimitsFor(c, s.Tier(p)) == CapsOf(c, s, p)
  {
  }

  predicate RiskWindow(s: State, p: Phone, now: nat) {
    p in s.users && s.users[p].riskUntil.Some? && now < s.users[p].riskUntil.value
  }

  predicate CallbackWindow(s: State, p: Phone, now: nat) {
    p in s.users && s.users[p].callbackUntil.Some? && now < s.users[p].callbackUntil.value
  }

  /** The amount fits beside what p has locked. */
  predicate FitsBesideLocks(s: State, p: Phone, amount: nat, now: nat) {
    p in s.users && s.Locked(p, now) > 0 ==> s.Locked(p, now) + amount <= s.Bal(p)
  }

  function Today(s: State, p: Phone, kind: Kind, now: nat): nat {
    SumKind(s.ledger, p, kind, DayOf(now))
  }

  lemma LocksBlockExactly(s: State, p: Phone, amount: nat, now: nat)
    requires amount > 0
    ensures LockBlocks(s, p, amount, now) <==> !FitsBesideLocks(s, p, amount, now)
  {
  }

  /** Everything the send gate asks before it looks at locks and sums. */
  ghost predicate SendIsInOrder(c: Config, s: State, now: nat, p: Phone, amount: nat, payee: string, phone: Option<Phone>)
    requires |c.tiers| == 3
  {
    && 0 < amount <= CapsOf(c, s, p).hardCeiling
    && (payee != "" ==>
          && UnderEveryCap(s.Rules(p), amount)
          && (s.HasPaid(p, CheckedParty(payee, phone)) || UnderEveryFirstCap(s.Rules(p), amount))
          && DeniedByNone(s.Rules(p), payee, phone))
    && (RiskWindow(s, p, now) ==> amount <= c.simMaxSend)
  }

  /** A send is accepted exactly if it is positive, under the ceiling, allowed by the rules, small enough for
      an open risk window, confirmed by a callback if large, beside the locked savings, and, unless it is above
      the soft cap, within the daily cap together with today's sends and holds. */
  lemma SendsPassExactly(c: Config, s: State, now: nat, p: Phone, amount: nat, payee: string, phone: Option<Phone>)
    requires |c.tiers| == 3
    ensures SendGate(c, s, now, p, amount, payee, phone).0 == Confirm
       <==> var caps := CapsOf(c, s, p);
            && SendIsInOrder(c, s, now, p, amount, payee, phone)
            && (amount > c.callbackThreshold.Or(caps.perTx) ==> CallbackWindow(s, p, now))
            && FitsBesideLocks(s, p, amount, now)
            && (amount <= caps.perTx ==> Today(s, p, Send, now) + Today(s, p, EscrowHold, now) + amount <= caps.daily)
  {
    hide RulesAccept, SumKind, SumLocked, UnderEveryCap, UnderEveryFirstCap, DeniedByNone, State.HasPaid, State.Rules, LockBlocks, FitsBesideLocks;
    CapsAreLimits(c, s, p);
    RulesAcceptExactly(s, p, amount, payee, phone);
    if amount > 0 {
      LocksBlockExactly(s, p, amount, now);
    }
  }

  /** A callback is asked for exactly if nothing else stands against a send that is too large without one. */
  lemma CallbacksAreAskedExactly(c: Config, s: State, now: nat, p: Phone, amount: nat, payee: string, phone: Option<Phone>)
    requires |c.tiers| == 3
    ensures SendGate(c, s, now, p, amount, payee, phone).0 == Callback
       <==> && SendIsInOrder(c, s, now, p, amount, payee, phone)
            && amount > c.callbackThreshold.Or(CapsOf(c, s, p).perTx) && !CallbackWindow(s, p, now)
  {
    hide RulesAccept, SumKind, SumLocked, UnderEveryCap, UnderEveryFirstCap, DeniedByNone, State.HasPaid, State.Rules, LockBlocks;
    CapsAreLimits(c, s, p);
    RulesAcceptExactly(s, p, amount, payee, phone);
  }

  /** Everything today, as swaps and top-ups are counted. */
  function AllToday(s: State, p: Phone, now: nat): nat {
    Today(s, p, Send, now) + Today(s, p, EscrowHold, now) + Today(s, p, Swap, now) + Today(s, p, Airtime, now)
  }

  /** What a swap out of USDC and a top-up must satisfy. */
  predicate SpendFits(c: Config, s: State, now: nat, p: Phone, amount: nat)
    requires |c.tiers| == 3
  {
    && 0 < amount <= CapsOf(c, s, p).hardCeiling
    && (RiskWindow(s, p, now) ==> amount <= c.simMaxSend)
    && FitsBesideLocks(s, p, amount, now)
    && AllToday(s, p, now) + amount <= CapsOf(c, s, p).daily
  }

  lemma SpendsPassExactly(c: Config, s: State, now: nat, p: Phone, amount: nat)
    requires |c.tiers| == 3 && amount > 0
    ensures SpendGate(c, s, now, p, amount).0 == Confirm <==> SpendFits(c, s, now, p, amount)
  {
    hide SumKind, SumLocked, LockBlocks, FitsBesideLocks;
    CapsAreLimits(c, s, p);
    LocksBlockExactly(s, p, amount, now);
  }

  /** A swap out of USDC passes exactly if the amount fits everywhere and the tokens differ; a swap of another
      token only has the ceiling. */
  lemma SwapsPassExactly(c: Config, s: State, now: nat, p: Phone, amount: nat, tokenIn: Token, tokenOut: Token)
    requires |c.tiers| == 3
    ensures SwapGate(c, s, now, p, amount, tokenIn, tokenOut).0 == Confirm
       <==> tokenIn != tokenOut && if tokenIn == USDC then SpendFits(c, s, now, p, amount) else 0 < amount <= CapsOf(c, s, p).hardCeiling
  {
    hide SpendGate, SumKind, SumLocked, FitsBesideLocks;
    CapsAreLimits(c, s, p);
    if amount > 0 {
      SpendsPassExactly(c, s, now, p, amount);
    }
  }

  lemma TopupsPassExactly(c: Config, s: State, now: nat, p: Phone, charge: nat)
    requires |c.tiers| == 3
    ensures TopupGate(c, s, now, p, charge).0 == Confirm <==> SpendFits(c, s, now, p, charge)
  {
    hide SpendGate, SumKind, SumLocked, FitsBesideLocks;
    if charge > 0 {
      SpendsPassExactly(c, s, now, p, charge);
    }
  }

  /** A price lookup is served exactly if one more cent fits under today's cap for lookups. */
  lemma LookupsPassExactly(c: Config, s: State, now: nat, p: Phone)
    requires |c.tiers| == 3
    ensures PriceGate(c, s, now, p) != Reject <==> Today(s, p, Nanopay, now) + 10_000 <= CapsOf(c, s, p).nanopayDaily
  {
    CapsAreLimits(c, s, p);
  }
}
