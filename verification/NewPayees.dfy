/** The frozen rule "never send more than X to someone I haven't paid before" over whole runs.  The
    rule asks the ledger about the payee's phone or, without a phone, about its label, while the
    ledger books an address payment under the address. */
module NewPayees {
  import opened Text
  import opened Tables
  import opened Settings
  import opened Policy
  import opened Runs
  import opened Authorization

  predicate IsCap(r: FrozenRule, cap: nat) {
    r.kind == MaxNewPayee && r.maxUsdc == Some(cap)
  }

  /** The counterparty the ledger names for an order. */
  function BookedParty(toAddress: Option<string>, toPhone: Option<Phone>): string {
    toPhone.Or(toAddress.Or(""))
  }

  /** The one way past the cap: the payee is a saved address, and the name it is saved under is
      itself a counterparty paid before (or the payee has no name at all). */
  predicate Gap(s: State, p: Phone, payee: string, toAddress: Option<string>, toPhone: Option<Phone>) {
    payee == "" || (toPhone.None? && payee != toAddress.Or("") && s.HasPaid(p, payee))
  }

  /** The rule test, as the gate runs it for a named payee. */
  predicate Passes(s: State, p: Phone, amount: nat, payee: string, toPhone: Option<Phone>) {
    payee == "" || RulesAccept(s, p, amount, payee, toPhone)
  }

  lemma AcceptedIsCapped(s: State, p: Phone, amount: nat, payee: string, toAddress: Option<string>, toPhone: Option<Phone>, r: FrozenRule, cap: nat)
    requires Passes(s, p, amount, payee, toPhone) && r in s.Rules(p) && IsCap(r, cap)
    requires !s.HasPaid(p, BookedParty(toAddress, toPhone)) && !Gap(s, p, payee, toAddress, toPhone)
    ensures amount <= cap
  {
    var paid := s.HasPaid(p, CheckedParty(payee, toPhone));
    AcceptedMeansNoRuleBroken(s.Rules(p), amount, payee, toPhone, paid);
    assert !Breaks(r, amount, payee, toPhone, paid);
  }

  /** For a counterparty not paid before, the cap holds for every amount exactly outside the gap. */
  lemma CapHoldsExactlyOutsideTheGap(s: State, p: Phone, payee: string, toAddress: Option<string>, toPhone: Option<Phone>, r: FrozenRule, cap: nat)
    requires s.Rules(p) == [r] && IsCap(r, cap)
    requires !s.HasPaid(p, BookedParty(toAddress, toPhone))
    ensures (forall amount: nat :: Passes(s, p, amount, payee, toPhone) ==> amount <= cap) <==> !Gap(s, p, payee, toAddress, toPhone)
  {
    if Gap(s, p, payee, toAddress, toPhone) {
      var paid := s.HasPaid(p, CheckedParty(payee, toPhone));
      AcceptedMeansNoRuleBroken(s.Rules(p), cap + 1, payee, toPhone, paid);
      assert Passes(s, p, cap + 1, payee, toPhone);
    } else {
      forall amount: nat | Passes(s, p, amount, payee, toPhone)
        ensures amount <= cap
      {
        AcceptedIsCapped(s, p, amount, payee, toAddress, toPhone, r, cap);
      }
    }
  }

  /** In every run, while the cap is in force the first send or hold of p to a counterparty is at
      most the cap, unless that payment falls in the gap. */
  lemma FirstPaymentsAreCapped(c: Config, run: seq<Input>, t: seq<State>, k: nat, p: Phone, row: LedgerRow, r: FrozenRule, cap: nat)
    requires Run(c, run, t) && k < |run| && c.Ordinary(p) && Sends(t[k], t[k + 1], p, row)
    requires row.counterparty.Some? && !t[k].HasPaid(p, row.counterparty.value)
    requires r in t[k].Rules(p) && IsCap(r, cap)
    ensures p in t[k].sessions && t[k].sessions[p].PSend?
    ensures var m := t[k].sessions[p];
            row.amount <= cap || Gap(t[k], p, m.toLabel, m.toAddress, m.toPhone)
  {
    hide Step, FromPeople, RulesAccept;
    SendsPayTheirOrder(c, run, t, k, p, row);
    var m := t[k].sessions[p];
    if !Gap(t[k], p, m.toLabel, m.toAddress, m.toPhone) {
      AcceptedIsCapped(t[k], p, m.amount, m.toLabel, m.toAddress, m.toPhone, r, cap);
    }
  }
}
