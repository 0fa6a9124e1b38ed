/** Every payment in a run traces back to one request of the same phone that the policy gate
    accepted, with nothing of that phone spent in between, and to a right PIN. */
module Authorization {
  import opened Text
  import opened Tables
  import opened Settings
  import opened Policy
  import opened Payees
  import opened Pipeline
  import opened Frames
  import opened Runs
  import opened Effects
  import opened Steps
  import opened Payments
  import opened Safety

  /** p spends between two states: a row of p that records an outflow appears, or its balance falls. */
  ghost predicate Spends(s: State, t: State, p: Phone) {
    || t.Bal(p) < s.Bal(p)
    || exists r :: |s.ledger| <= r < |t.ledger| && t.ledger[r].phone == p && Outflow(t.ledger[r].kind)
  }

  /** p asked, the gate accepted, and the order for it went into the slot. */
  ghost predicate AcceptedBy(c: Config, s: State, t: State, i: Input, p: Phone, m: Pending)
    requires |c.tiers| == 3
  {
    By(s, i, p) && Opens(c, s, t, i.at, p, IntentOf(s, i)) && SameOrder(t.sessions[p], m)
  }

  /** The steps after j and before n are harmless to p. */
  ghost predicate Quiet(run: seq<Input>, t: seq<State>, j: nat, n: nat, p: Phone)
    requires n <= |run| && |t| == |run| + 1
  {
    forall i | j < i < n :: Harmless(t[i], t[i + 1], run[i].at, p)
  }

  /** m was accepted at step j and nothing of weight happened to p in the steps up to n. */
  ghost predicate StandsSince(c: Config, run: seq<Input>, t: seq<State>, j: nat, n: nat, p: Phone, m: Pending)
    requires |c.tiers| == 3 && n <= |run| && |t| == |run| + 1
  {
    j < n && AcceptedBy(c, t[j], t[j + 1], run[j], p, m) && Quiet(run, t, j, n, p)
  }

  /** An order that can still be executed. */
  predicate Live(s: State, m: Pending) {
    Guarded(m) && (Money(m) ==> KeyOf(m) !in s.idem)
  }

  lemma AcceptedUpToMemo(c: Config, s: State, t: State, i: Input, p: Phone, m: Pending, m2: Pending)
    requires |c.tiers| == 3 && AcceptedBy(c, s, t, i, p, m) && SameOrder(m, m2)
    ensures AcceptedBy(c, s, t, i, p, m2)
  {
    hide Opens;
  }

  lemma QuietLonger(run: seq<Input>, t: seq<State>, j: nat, n: nat, p: Phone)
    requires n < |run| && |t| == |run| + 1 && Quiet(run, t, j, n, p)
    requires Harmless(t[n], t[n + 1], run[n].at, p)
    ensures Quiet(run, t, j, n + 1, p)
  {
    hide Harmless;
  }

  /** Every order waiting in a slot was accepted at some step and has stood untouched since. */
  lemma {:induction false} WaitingOrdersWereAccepted(c: Config, run: seq<Input>, t: seq<State>, n: nat, p: Phone) returns (j: nat)
    requires Run(c, run, t) && n <= |run| && c.Ordinary(p)
    requires p in t[n].sessions && Live(t[n], t[n].sessions[p])
    ensures StandsSince(c, run, t, j, n, p, t[n].sessions[p])
  {
    hide Step, FromPeople, Opens, Pays, Freezes, Locks;
    if n == 0 {
      assert false;
    } else {
      var k := n - 1;
      StepOfRun(c, run, t, k);
      StepHasEffect(c, t[k], run[k], p);
      if Harmless(t[k], t[n], run[k].at, p) {
        j := WaitingOrdersWereAccepted(c, run, t, k, p);
        AcceptedUpToMemo(c, t[j], t[j + 1], run[j], p, t[k].sessions[p], t[n].sessions[p]);
        QuietLonger(run, t, j, k, p);
      } else if Opens(c, t[k], t[n], run[k].at, p, IntentOf(t[k], run[k])) {
        j := k;
      } else if Leaves(t[k], t[n], p) {
        assert false;
      } else {
        NothingLiveRemains(c, t[k], t[n], run[k], p);
        assert false;
      }
    }
  }

  lemma NothingLiveRemains(c: Config, s: State, t: State, i: Input, p: Phone)
    requires |c.tiers| == 3 && c.Ordinary(p) && By(s, i, p)
    requires Pays(c, s, t, i.at, p, PinOf(s, i), i.m.env) || Locks(s, t, i.at, p) || exists pin :: Freezes(s, t, i.at, p, pin)
    ensures p in t.sessions ==> !Live(t, t.sessions[p])
  {
    if Pays(c, s, t, i.at, p, PinOf(s, i), i.m.env) {
      PayingSpends(c, s.ClearFails(p), i.at, p, s.sessions[p], i.m.env);
    }
  }

  lemma HarmlessDoesNotSpend(s: State, t: State, now: nat, p: Phone)
    requires Harmless(s, t, now, p)
    ensures !Spends(s, t, p)
  {
    hide ActiveRules, SumLocked;
  }

  lemma LeavingDoesNotSpend(s: State, t: State, p: Phone)
    requires Leaves(s, t, p)
    ensures !Spends(s, t, p)
  {
  }

  lemma OthersDoNotSpend(c: Config, s: State, t: State, now: nat, p: Phone, intent: Intent)
    requires |c.tiers| == 3 && (Opens(c, s, t, now, p, intent) || Locks(s, t, now, p) || exists pin :: Freezes(s, t, now, p, pin))
    ensures !Spends(s, t, p)
  {
    hide Accepted, FreezeRows, RevokeRows, ReleaseRows, SumLocked, ActiveRules, Unlocks;
  }

  /** Of the six effects only a payment spends. */
  lemma OnlyPaymentsSpend(c: Config, s: State, t: State, i: Input, p: Phone)
    requires |c.tiers| == 3 && Effect(c, s, t, i, p) && Spends(s, t, p)
    ensures By(s, i, p) && Pays(c, s, t, i.at, p, PinOf(s, i), i.m.env)
  {
    hide Harmless, Leaves, Opens, Pays, Locks, Freezes, NormalizePhone, ExpandDigits, Spends;
    if Harmless(s, t, i.at, p) {
      HarmlessDoesNotSpend(s, t, i.at, p);
    } else if Leaves(s, t, p) {
      LeavingDoesNotSpend(s, t, p);
    } else if !Pays(c, s, t, i.at, p, PinOf(s, i), i.m.env) {
      OthersDoNotSpend(c, s, t, i.at, p, IntentOf(s, i));
    }
  }

  /** Money leaves a phone only by a message of that phone that carries its PIN, while the account
      is set up and not locked, and only for an order that the policy gate accepted earlier, amount
      and payee unchanged, with no other outflow of the phone in between. */
  lemma SpendingIsAuthorized(c: Config, run: seq<Input>, t: seq<State>, k: nat, p: Phone) returns (j: nat)
    requires Run(c, run, t) && k < |run| && c.Ordinary(p) && Spends(t[k], t[k + 1], p)
    ensures By(t[k], run[k], p) && Unlocks(t[k], run[k].at, p, PinOf(t[k], run[k]))
    ensures p in t[k].sessions && Money(t[k].sessions[p]) && StandsSince(c, run, t, j, k, p, t[k].sessions[p])
  {
    hide Step, FromPeople, Opens;
    j := PaymentsWereAccepted(c, run, t, k, p);
  }

  /** The same, with the payment itself. */
  lemma PaymentsWereAccepted(c: Config, run: seq<Input>, t: seq<State>, k: nat, p: Phone) returns (j: nat)
    requires Run(c, run, t) && k < |run| && c.Ordinary(p) && Spends(t[k], t[k + 1], p)
    ensures By(t[k], run[k], p) && Pays(c, t[k], t[k + 1], run[k].at, p, PinOf(t[k], run[k]), run[k].m.env)
    ensures StandsSince(c, run, t, j, k, p, t[k].sessions[p])
  {
    hide Step, FromPeople, Opens, PayFx;
    StepOfRun(c, run, t, k);
    StepHasEffect(c, t[k], run[k], p);
    OnlyPaymentsSpend(c, t[k], t[k + 1], run[k], p);
    j := WaitingOrdersWereAccepted(c, run, t, k, p);
  }

  /** Whoever has money pending has a name and a PIN, so the set-up checks of the confirm branches
      never fire for it. */
  lemma PendingMoneyMeansOnboarded(c: Config, run: seq<Input>, t: seq<State>, k: nat, p: Phone)
    requires Run(c, run, t) && k <= |run| && c.Ordinary(p)
    requires p in t[k].sessions && Money(t[k].sessions[p])
    ensures p in t[k].users && Onboarded(t[k].users[p])
  {
    RunsAreBound(c, run, t, k);
  }

  lemma LargeSendNeedsCallback(c: Config, s: State, t: State, i: Input, p: Phone, m: Pending)
    requires |c.tiers| == 3 && c.callbackThreshold.None?
    requires AcceptedBy(c, s, t, i, p, m) && m.PSend?
    requires m.amount > LimitsFor(c, s.Tier(p)).perTx
    ensures p in s.users && Active(s.users[p].callbackUntil, i.at)
  {
  }

  /** With the threshold left at its default, a send above the soft cap was only accepted while a
      callback window of the caller was open. */
  lemma LargeSendsHadACallback(c: Config, run: seq<Input>, t: seq<State>, k: nat, p: Phone) returns (j: nat)
    requires Run(c, run, t) && k < |run| && c.Ordinary(p) && Spends(t[k], t[k + 1], p) && c.callbackThreshold.None?
    requires p in t[k].sessions && t[k].sessions[p].PSend?
    ensures StandsSince(c, run, t, j, k, p, t[k].sessions[p])
    ensures t[k].sessions[p].amount > LimitsFor(c, t[j].Tier(p)).perTx ==>
              p in t[j].users && Active(t[j].users[p].callbackUntil, run[j].at)
  {
    hide Step, FromPeople, Opens;
    j := SpendingIsAuthorized(c, run, t, k, p);
    if t[k].sessions[p].amount > LimitsFor(c, t[j].Tier(p)).perTx {
      LargeSendNeedsCallback(c, t[j], t[j + 1], run[j], p, t[k].sessions[p]);
    }
  }

  // ----- rules at the moment of payment -----

  /** A row that books a send or a hold of p appears between two states. */
  ghost predicate Sends(s: State, t: State, p: Phone, row: LedgerRow) {
    && s.ledger <= t.ledger && row in t.ledger[|s.ledger|..]
    && row.phone == p && (row.kind == Send || row.kind == EscrowHold)
  }

  lemma SendingSpends(s: State, t: State, p: Phone, row: LedgerRow)
    requires Sends(s, t, p, row)
    ensures Spends(s, t, p)
  {
    var n :| 0 <= n < |t.ledger[|s.ledger|..]| && t.ledger[|s.ledger|..][n] == row;
    assert t.ledger[|s.ledger| + n] == row;
  }

  lemma TheRowIsBooked(s: State, t: State, now: nat, p: Phone, m: Pending, row: LedgerRow)
    requires Money(m) && (m.PSend? ==> WellAddressed(m)) && Books(s, t, now, p, m) && Sends(s, t, p, row)
    ensures m.PSend? && row.amount == m.amount && row.counterparty == Some(m.toPhone.Or(m.toAddress.Or("")))
  {
  }

  /** A booked send or hold is the payment of the order in the slot. */
  lemma SendsPayTheirOrder(c: Config, run: seq<Input>, t: seq<State>, k: nat, p: Phone, row: LedgerRow)
    requires Run(c, run, t) && k < |run| && c.Ordinary(p) && Sends(t[k], t[k + 1], p, row)
    ensures p in t[k].sessions && t[k].sessions[p].PSend?
    ensures var m := t[k].sessions[p];
            && row.amount == m.amount && row.counterparty == Some(m.toPhone.Or(m.toAddress.Or("")))
            && RulesBind(t[k], p, m)
  {
    hide Step, FromPeople, StandsSince, RulesAccept;
    SendingSpends(t[k], t[k + 1], p, row);
    var j := PaymentsWereAccepted(c, run, t, k, p);
    StepOfRun(c, run, t, k);
    var m := t[k].sessions[p];
    PayingSpends(c, t[k].ClearFails(p), run[k].at, p, m, run[k].m.env);
    assert Bound(t[k], run[k].at, p);
    TheRowIsBooked(t[k], t[k + 1], run[k].at, p, m, row);
  }

  /** Frozen rules bind every send at the moment it is paid: whatever p has in force when a step books
      a send or a hold, that payment breaks no rule, although rules are only checked on request. */
  lemma PaidSendsObeyTheRules(c: Config, run: seq<Input>, t: seq<State>, k: nat, p: Phone, row: LedgerRow, r: FrozenRule)
    requires Run(c, run, t) && k < |run| && c.Ordinary(p) && Sends(t[k], t[k + 1], p, row) && r in t[k].Rules(p)
    ensures p in t[k].sessions && t[k].sessions[p].PSend?
    ensures var m := t[k].sessions[p];
            m.toLabel != "" ==>
              !Breaks(r, row.amount, m.toLabel, m.toPhone, t[k].HasPaid(p, CheckedParty(m.toLabel, m.toPhone)))
  {
    hide Step, FromPeople, Breaks;
    SendsPayTheirOrder(c, run, t, k, p, row);
    var m := t[k].sessions[p];
    AcceptedMeansNoRuleBroken(t[k].Rules(p), m.amount, m.toLabel, m.toPhone, t[k].HasPaid(p, CheckedParty(m.toLabel, m.toPhone)));
  }
}
