/** The hard ceiling, the risk window and the frozen rules over whole runs: what they promise about the
    rows that get booked, stated without the gate that enforces them. */
module Ceilings {
  import opened Text
  import opened Tables
  import opened Settings
  import opened Policy
  import opened Pipeline
  import opened Frames
  import opened Runs
  import opened Effects
  import opened Payments
  import opened Safety
  import opened Authorization
  import opened Gates

  /** A row appears that books money leaving p: a send, a hold, a swap or airtime. */
  ghost predicate Outgoing(s: State, t: State, p: Phone, row: LedgerRow) {
    && s.ledger <= t.ledger && row in t.ledger[|s.ledger|..]
    && row.phone == p && Outflow(row.kind)
  }

  lemma OutgoingSpends(s: State, t: State, p: Phone, row: LedgerRow)
    requires Outgoing(s, t, p, row)
    ensures Spends(s, t, p)
  {
    var n :| 0 <= n < |t.ledger[|s.ledger|..]| && t.ledger[|s.ledger|..][n] == row;
    assert t.ledger[|s.ledger| + n] == row;
  }

  lemma OutgoingIsTheCost(s: State, t: State, now: nat, p: Phone, m: Pending, row: LedgerRow)
    requires Money(m) && Books(s, t, now, p, m) && Outgoing(s, t, p, row)
    ensures row == BookedRow(p, m, now) && row.amount == Cost(m)
  {
  }

  /** An accepted order is under the ceiling of the caller's tier, and small while a risk window is open. */
  lemma AcceptedOrdersAreWithin(c: Config, s: State, now: nat, p: Phone, intent: Intent, m: Pending)
    requires |c.tiers| == 3 && Accepted(c, s, now, p, intent, m) && Money(m)
    ensures Cost(m) <= CapsOf(c, s, p).hardCeiling
    ensures RiskWindow(s, p, now) ==> Cost(m) <= c.simMaxSend
  {
    hide SendGate, SwapGate, TopupGate, CapsOf, RiskWindow, FitsBesideLocks, Today, AllToday, AirtimeCharge;
    match intent
    case SendTo(amount, _, _) => SendsPassExactly(c, s, now, p, amount, m.toLabel, m.toPhone);
    case SwapFor(amount, tokenIn, tokenOut) => SwapsPassExactly(c, s, now, p, amount, tokenIn, tokenOut);
    case Topup(_, _, _) => TopupsPassExactly(c, s, now, p, m.charge);
  }

  lemma SameOrderSameCost(m: Pending, n: Pending)
    requires SameOrder(m, n)
    ensures Money(m) <==> Money(n)
    ensures Cost(m) == Cost(n)
  {
  }

  /** The accepted request behind a payment of p, in the state that accepted it. */
  lemma StandingOrdersAreWithin(c: Config, run: seq<Input>, t: seq<State>, j: nat, k: nat, p: Phone, m: Pending)
    requires |c.tiers| == 3 && k <= |run| && |t| == |run| + 1 && StandsSince(c, run, t, j, k, p, m) && Money(m)
    ensures p in t[j].users && Cost(m) <= c.tiers[t[j].users[p].tier].hardCeiling
    ensures RiskWindow(t[j], p, run[j].at) ==> Cost(m) <= c.simMaxSend
  {
    hide Accepted, Quiet, RiskWindow;
    SameOrderSameCost(t[j + 1].sessions[p], m);
    AcceptedOrdersAreWithin(c, t[j], run[j].at, p, IntentOf(t[j], run[j]), t[j + 1].sessions[p]);
  }

  /** In every run, whatever is booked as leaving a phone, send, hold, swap or airtime, was accepted at some
      earlier step j, and it is at most the hard ceiling of the tier that the phone had then; if a risk window
      was open then, it is at most what such a window allows. */
  lemma SpendingIsWithinTheCeiling(c: Config, run: seq<Input>, t: seq<State>, k: nat, p: Phone, row: LedgerRow) returns (j: nat)
    requires Run(c, run, t) && k < |run| && c.Ordinary(p) && Outgoing(t[k], t[k + 1], p, row)
    ensures p in t[k].sessions && Money(t[k].sessions[p]) && StandsSince(c, run, t, j, k, p, t[k].sessions[p])
    ensures p in t[j].users && row.amount <= c.tiers[t[j].users[p].tier].hardCeiling
    ensures RiskWindow(t[j], p, run[j].at) ==> row.amount <= c.simMaxSend
  {
    hide Step, FromPeople, StandsSince, PayFx, Books;
    OutgoingSpends(t[k], t[k + 1], p, row);
    j := PaymentsWereAccepted(c, run, t, k, p);
    StepOfRun(c, run, t, k);
    var m := t[k].sessions[p];
    PayingSpends(c, t[k].ClearFails(p), run[k].at, p, m, run[k].m.env);
    BooksAfterClearing(t[k], t[k + 1], run[k].at, p, m);
    OutgoingIsTheCost(t[k], t[k + 1], run[k].at, p, m, row);
    StandingOrdersAreWithin(c, run, t, j, k, p, m);
  }

  lemma BooksAfterClearing(s: State, t: State, now: nat, p: Phone, m: Pending)
    requires p in s.users && Money(m) && Books(s.ClearFails(p), t, now, p, m)
    ensures Books(s, t, now, p, m)
  {
  }

  // ----- frozen rules -----

  /** While a per-transfer cap is in force, every booked send or hold with a title is at most the cap. */
  lemma PaidSendsAreUnderTheCap(c: Config, run: seq<Input>, t: seq<State>, k: nat, p: Phone, row: LedgerRow, cap: nat, party: Option<string>)
    requires Run(c, run, t) && k < |run| && c.Ordinary(p) && Sends(t[k], t[k + 1], p, row)
    requires RuleRow(p, FrozenRule(MaxPerTx, Some(cap), party), true) in t[k].rules
    ensures p in t[k].sessions && t[k].sessions[p].PSend?
    ensures t[k].sessions[p].toLabel != "" ==> row.amount <= cap
  {
    hide Step, FromPeople, RulesAccept;
    SendsPayTheirOrder(c, run, t, k, p, row);
    var m := t[k].sessions[p];
    RulesInForce(t[k].rules, p, FrozenRule(MaxPerTx, Some(cap), party));
    RulesAcceptExactly(t[k], p, m.amount, m.toLabel, m.toPhone);
  }

  /** While a label is denied, no booked send or hold goes to a payee with a title that contains the text in
      any case, nor to a number that contains its digits. */
  lemma DeniedPayeesAreNotPaid(c: Config, run: seq<Input>, t: seq<State>, k: nat, p: Phone, row: LedgerRow, text: string, cap: Option<nat>)
    requires Run(c, run, t) && k < |run| && c.Ordinary(p) && Sends(t[k], t[k + 1], p, row)
    requires RuleRow(p, FrozenRule(DenyLabel, cap, Some(text)), true) in t[k].rules && text != ""
    ensures p in t[k].sessions && t[k].sessions[p].PSend?
    ensures var m := t[k].sessions[p];
            && row.counterparty == Some(m.toPhone.Or(m.toAddress.Or("")))
            && (m.toLabel != "" ==>
                  && !Includes(Lower(m.toLabel), Lower(text))
                  && (m.toPhone.Some? && m.toPhone.value != "" ==> !Includes(m.toPhone.value, Text.Digits(Lower(text)))))
  {
    hide Step, FromPeople, RulesAccept;
    SendsPayTheirOrder(c, run, t, k, p, row);
    var m, rule := t[k].sessions[p], FrozenRule(DenyLabel, cap, Some(text));
    RulesInForce(t[k].rules, p, rule);
    RulesAcceptExactly(t[k], p, m.amount, m.toLabel, m.toPhone);
    assert m.toLabel != "" ==> !Mentions(rule.party.value, m.toLabel, m.toPhone);
  }
}
