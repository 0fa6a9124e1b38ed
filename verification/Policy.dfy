/** Deployment settings the orchestrator reads from its environment. */
module Settings {
  import opened Text
  import opened Tables

  datatype Limits = Limits(perTx: nat, daily: nat, hardCeiling: nat, nanopayDaily: nat)

  /** `isAddress` stands for viem's on-chain address check; the other fields are the variables of
      the same meaning.  `reserve` is the gas kept back from a payout (0 when gas is sponsored). */
  datatype Config = Config(
    tiers: seq<Limits>,
    simMaxSend: nat,
    callbackThreshold: Option<nat>,
    maxFails: nat,
    lockMs: nat,
    cooldownMs: nat,
    callbackMs: nat,
    recoveryMs: nat,
    claimCap: nat,
    claimMs: nat,
    escrow: Phone,
    sink: Phone,
    reserve: nat,
    eurUsd: nat,
    feeBps: nat,
    isAddress: string -> bool)
  {
    ghost predicate Valid() {
      && |tiers| == 3
      && escrow != sink
      && maxFails >= 1 && lockMs >= 1
    }

    /** Accounts of people, as opposed to the two house accounts. */
    predicate Ordinary(p: Phone) {
      p != escrow && p != sink
    }
  }

  /** The caps shipped in the code when no variable overrides them. */
  const DEFAULT_TIERS: seq<Limits> := [
    Limits(5_000_000, 20_000_000, 25_000_000, 1_000_000),
    Limits(25_000_000, 100_000_000, 125_000_000, 1_000_000),
    Limits(100_000_000, 500_000_000, 500_000_000, 1_000_000)]

  /** `limitsForTier`: out-of-range tiers are clamped. */
  function LimitsFor(c: Config, tier: nat): Limits
    requires |c.tiers| == 3
  {
    c.tiers[Min(2, tier)]
  }
}

/** The deterministic gate in front of every payment (orchestrator/src/lib/policy.ts) and the
    frozen user rules it enforces (orchestrator/src/lib/policyRules.ts). */
module Policy {
  import opened Text
  import opened Tables
  import opened Settings

  datatype Verdict = Pass | Confirm | Reject | Callback

  predicate Active(until: Option<nat>, now: nat) {
    until.Some? && until.value > now
  }

  // ----- frozen rules -----

  /** Does rule r forbid this payment?  `paid` says whether the payee was paid before. */
  predicate Breaks(r: FrozenRule, amount: nat, payee: string, phone: Option<Phone>, paid: bool) {
    match r.kind
    case DenyLabel =>
      var who := Lower(r.party.Or(""));
      who != "" && (Includes(Lower(payee), who)
                    || (phone.Some? && phone.value != "" && Includes(phone.value, Digits(who))))
    case MaxPerTx => r.maxUsdc.Some? && amount > r.maxUsdc.value
    case MaxNewPayee => r.maxUsdc.Some? && !paid && amount > r.maxUsdc.value
  }

  /** `applyUserRules`: the first rule, in frozen order, that the payment breaks. */
  function FirstBroken(rules: seq<FrozenRule>, amount: nat, payee: string, phone: Option<Phone>, paid: bool): Option<FrozenRule> {
    if rules == [] then None
    else if Breaks(rules[0], amount, payee, phone, paid) then Some(rules[0])
    else FirstBroken(rules[1..], amount, payee, phone, paid)
  }

  /** Acceptance by the rules means no rule is broken, whichever the order they were frozen in. */
  lemma {:induction false} AcceptedMeansNoRuleBroken(rules: seq<FrozenRule>, amount: nat, payee: string, phone: Option<Phone>, paid: bool)
    ensures FirstBroken(rules, amount, payee, phone, paid) == None
       <==> forall r | r in rules :: !Breaks(r, amount, payee, phone, paid)
  {
    if rules != [] {
      AcceptedMeansNoRuleBroken(rules[1..], amount, payee, phone, paid);
      assert forall r :: r in rules <==> r == rules[0] || r in rules[1..];
    }
  }

  lemma RuleOrderIsIrrelevant(one: seq<FrozenRule>, other: seq<FrozenRule>, amount: nat, payee: string, phone: Option<Phone>, paid: bool)
    requires multiset(one) == multiset(other)
    ensures FirstBroken(one, amount, payee, phone, paid).None? == FirstBroken(other, amount, payee, phone, paid).None?
  {
    AcceptedMeansNoRuleBroken(one, amount, payee, phone, paid);
    AcceptedMeansNoRuleBroken(other, amount, payee, phone, paid);
    assert forall r :: r in one <==> r in multiset(one);
    assert forall r :: r in other <==> r in multiset(other);
  }

  /** A deny rule whose label has no digit forbids every payee that has a phone, because every
      phone number includes the empty string. */
  lemma LetterLabelDeniesEveryPhone(label0: string, amount: nat, payee: string, phone: Phone, paid: bool)
    requires label0 != "" && phone != "" && Digits(Lower(label0)) == ""
    ensures Breaks(FrozenRule(DenyLabel, None, Some(label0)), amount, payee, Some(phone), paid)
  {
    EveryTextIncludesEmpty(phone);
  }

  /** Whom the ledger will name for a payment, as the rule check computes it. */
  function CheckedParty(payee: string, phone: Option<Phone>): string {
    phone.Or(payee)
  }

  predicate RulesAccept(s: State, p: Phone, amount: nat, payee: string, phone: Option<Phone>) {
    FirstBroken(s.Rules(p), amount, payee, phone, s.HasPaid(p, CheckedParty(payee, phone))).None?
  }

  /** `applyUserRules`: the rules in force are tried in order, and the first broken one is the answer. */
  method ApplyUserRules(desk: Desk, p: Phone, amount: nat, payee: string, phone: Option<Phone>) returns (broken: Option<FrozenRule>)
    ensures broken.None? <==> RulesAccept(desk.Now(), p, amount, payee, phone)
    ensures broken.Some? ==>
              broken.value in desk.Now().Rules(p)
              && Breaks(broken.value, amount, payee, phone, desk.Now().HasPaid(p, CheckedParty(payee, phone)))
  {
    var rules := ActiveRules(desk.rules, p);
    var paid := desk.Now().HasPaid(p, CheckedParty(payee, phone));
    for i := 0 to |rules|
      invariant FirstBroken(rules, amount, payee, phone, paid) == FirstBroken(rules[i..], amount, payee, phone, paid)
    {
      if Breaks(rules[i], amount, payee, phone, paid) {
        return Some(rules[i]);
      }
      assert rules[i..][1..] == rules[i + 1..];
    }
    return None;
  }

  // ----- freezing -----

  function FreezeRows(rows: seq<RuleRow>, p: Phone, rules: seq<FrozenRule>): seq<RuleRow>
    decreases rules
  {
    if rules == [] then rows
    else FreezeRows(rows + [RuleRow(p, rules[0], true)], p, rules[1..])
  }

  lemma {:induction false} RevokedHasNoActive(rows: seq<RuleRow>, p: Phone, q: Phone)
    ensures ActiveRules(RevokeRows(rows, p), q) == if q == p then [] else ActiveRules(rows, q)
  {
    if |rows| > 0 {
      RevokedHasNoActive(rows[..|rows| - 1], p, q);
      var out := RevokeRows(rows, p);
      assert out[..|out| - 1] == RevokeRows(rows[..|rows| - 1], p);
    }
  }

  lemma {:induction false} FrozenRulesAreAppended(rows: seq<RuleRow>, p: Phone, rules: seq<FrozenRule>, q: Phone)
    ensures ActiveRules(FreezeRows(rows, p, rules), q) == ActiveRules(rows, q) + if q == p then rules else []
    decreases rules
  {
    if rules != [] {
      var more := rows + [RuleRow(p, rules[0], true)];
      assert more[..|more| - 1] == rows;
      FrozenRulesAreAppended(more, p, rules[1..], q);
      if q == p {
        assert ActiveRules(more, q) == ActiveRules(rows, q) + [rules[0]];
        assert [rules[0]] + rules[1..] == rules;
      }
    }
  }

  /** Replacing the rules leaves exactly the drafted ones in force, in their order, and touches
      nobody else's. */
  lemma ReplacedRulesAreTheDraft(rows: seq<RuleRow>, p: Phone, draft: seq<FrozenRule>, q: Phone)
    ensures ActiveRules(FreezeRows(RevokeRows(rows, p), p, draft), q) == if q == p then draft else ActiveRules(rows, q)
  {
    RevokedHasNoActive(rows, p, q);
    FrozenRulesAreAppended(RevokeRows(rows, p), p, draft, q);
  }

  /** `clearFrozenRules`. */
  method ClearFrozenRules(desk: Desk, p: Phone)
    modifies desk
    ensures desk.Now() == old(desk.Now()).(rules := RevokeRows(old(desk.rules), p))
  {
    desk.rules := RevokeRows(desk.rules, p);
  }

  /** `freezeRules`: one insert per drafted rule. */
  method FreezeRules(desk: Desk, p: Phone, draft: seq<FrozenRule>)
    modifies desk
    ensures desk.Now() == old(desk.Now()).(rules := FreezeRows(old(desk.rules), p, draft))
  {
    for i := 0 to |draft|
      invariant desk.Now() == old(desk.Now()).(rules := desk.rules)
      invariant FreezeRows(desk.rules, p, draft[i..]) == FreezeRows(old(desk.rules), p, draft)
    {
      assert draft[i..][1..] == draft[i + 1..];
      desk.rules := desk.rules + [RuleRow(p, draft[i], true)];
    }
  }

  // ----- spend gates -----

  /** `quoteAirtimeCharge`: face value times exchange rate plus fee, rounded to micro-USDC. */
  function AirtimeCharge(c: Config, face: nat, euro: bool): nat {
    var dollars := Times(face, if euro then c.eurUsd else 1_000_000);
    (Times(dollars, 10_000 + c.feeBps) + 5_000_000_000) / 10_000_000_000
  }

  function Times(a: nat, b: nat): nat {
    a * b
  }

  /** Everything that left p's wallet today, as the swap and top-up gates count it. */
  function SpentToday(s: State, p: Phone, now: nat): nat {
    s.Spent(p, Send, DayOf(now)) + s.Spent(p, EscrowHold, DayOf(now))
    + s.Spent(p, Swap, DayOf(now)) + s.Spent(p, Airtime, DayOf(now))
  }

  /** Sends and holds today, as the send gate counts them. */
  function SentToday(s: State, p: Phone, now: nat): nat {
    s.Spent(p, Send, DayOf(now)) + s.Spent(p, EscrowHold, DayOf(now))
  }

  predicate CoolsDown(c: Config, s: State, p: Phone, amount: nat, now: nat) {
    p in s.users && Active(s.users[p].riskUntil, now) && amount > c.simMaxSend
  }

  /** The savings-lock test: it only looks at the balance when something is locked. */
  predicate LockBlocks(s: State, p: Phone, amount: nat, now: nat) {
    p in s.users && s.Locked(p, now) > 0 && amount > s.Available(p, now)
  }

  /** Reading the available balance also releases matured locks. */
  function AfterLockCheck(s: State, p: Phone, now: nat): State {
    if p in s.users then s.ReleaseMatured(p, now) else s
  }

  /** `evaluatePolicy` for a send: the verdict and the tables after the check. */
  function SendGate(c: Config, s: State, now: nat, p: Phone, amount: nat, payee: string, phone: Option<Phone>): (Verdict, State)
    requires |c.tiers| == 3
  {
    var lim := LimitsFor(c, s.Tier(p));
    if amount == 0 || amount > lim.hardCeiling then (Reject, s)
    else if payee != "" && !RulesAccept(s, p, amount, payee, phone) then (Reject, s)
    else if CoolsDown(c, s, p, amount, now) then (Reject, s)
    else if amount > c.callbackThreshold.Or(lim.perTx) && !(p in s.users && Active(s.users[p].callbackUntil, now)) then (Callback, s)
    else
      var after := AfterLockCheck(s, p, now);
      if LockBlocks(s, p, amount, now) then (Reject, after)
      else if amount > lim.perTx then (Confirm, after)
      else if SentToday(s, p, now) + amount > lim.daily then (Reject, after)
      else (Confirm, after)
  }

  /** The checks shared by a swap out of USDC and a top-up. */
  function SpendGate(c: Config, s: State, now: nat, p: Phone, amount: nat): (Verdict, State)
    requires |c.tiers| == 3
  {
    var lim := LimitsFor(c, s.Tier(p));
    if amount > lim.hardCeiling || CoolsDown(c, s, p, amount, now) then (Reject, s)
    else
      var after := AfterLockCheck(s, p, now);
      if LockBlocks(s, p, amount, now) || SpentToday(s, p, now) + amount > lim.daily then (Reject, after)
      else (Confirm, after)
  }

  /** `evaluatePolicy` for a swap. */
  function SwapGate(c: Config, s: State, now: nat, p: Phone, amount: nat, tokenIn: Token, tokenOut: Token): (Verdict, State)
    requires |c.tiers| == 3
  {
    if amount == 0 || tokenIn == tokenOut then (Reject, s)
    else if tokenIn == USDC then SpendGate(c, s, now, p, amount)
    else if amount > LimitsFor(c, s.Tier(p)).hardCeiling then (Reject, s)
    else (Confirm, s)
  }

  /** `evaluatePolicy` for a top-up of the quoted charge. */
  function TopupGate(c: Config, s: State, now: nat, p: Phone, charge: nat): (Verdict, State)
    requires |c.tiers| == 3
  {
    if charge == 0 then (Reject, s) else SpendGate(c, s, now, p, charge)
  }

  /** `evaluatePolicy` for a paid price lookup: one cent must fit under the nanopay cap. */
  function PriceGate(c: Config, s: State, now: nat, p: Phone): Verdict
    requires |c.tiers| == 3
  {
    if s.Spent(p, Nanopay, DayOf(now)) + 10_000 > LimitsFor(c, s.Tier(p)).nanopayDaily then Reject else Pass
  }

  /** More rules never open the gate: if a send passes with the larger rule set it passes with the
      smaller one, through every check of the gate. */
  lemma AddingRulesOnlyTightens(c: Config, s: State, more: seq<RuleRow>, now: nat, p: Phone, amount: nat, payee: string, phone: Option<Phone>)
    requires |c.tiers| == 3
    requires forall r | r in s.Rules(p) :: r in ActiveRules(more, p)
    requires SendGate(c, s.(rules := more), now, p, amount, payee, phone).0 == Confirm
    ensures SendGate(c, s, now, p, amount, payee, phone).0 == Confirm
  {
    var paid := s.HasPaid(p, CheckedParty(payee, phone));
    AcceptedMeansNoRuleBroken(s.Rules(p), amount, payee, phone, paid);
    AcceptedMeansNoRuleBroken(ActiveRules(more, p), amount, payee, phone, paid);
    var s2 := s.(rules := more);
    assert s2.HasPaid(p, CheckedParty(payee, phone)) == paid;
    assert s2.Locked(p, now) == s.Locked(p, now) && s2.Available(p, now) == s.Available(p, now);
    assert SentToday(s2, p, now) == SentToday(s, p, now);
  }
}
