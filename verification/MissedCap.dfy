/** A concrete run that pays an address for the first time above the new-payee cap.  Ben pays one shop,
    saves another shop's address under the very text of the first one's, freezes a cap of one dollar for
    new payees, and sends five dollars to the first address with a letter in the wrong case: read as the
    contact, the payment is checked against the shop that was paid and goes to the one that was not. */
module MissedCap {
  import opened Text
  import opened Tables
  import opened Policy
  import opened Payees
  import opened Pipeline
  import opened Runs
  import opened Authorization
  import opened NewPayees
  import opened Scenes

  const CAP := FrozenRule(MaxNewPayee, Some(1_000_000), None)
  const SLIP := "0xAb"

  const FIRST := Say(SendTo(500_000, OLD_SHOP, ""))
  const SAVE := Say(Save(OLD_SHOP, SHOP))
  const FREEZE := Say(SetPolicy([CAP]))
  const SECOND := Say(SendTo(5_000_000, SLIP, ""))
  const REST := [FIRST, YES, SAVE, FREEZE, YES, SECOND, YES]

  lemma FirstIsPaid() returns (t: State)
    ensures t == Step(SceneConfig(), Step(SceneConfig(), START, FIRST), YES)
    ensures PaidAddress(START, t, 500_000, OLD_SHOP, 0)
  {
    hide Step;
    SetUp();
    BenIsBen();
    AddressIsOrdered(START, 500_000, OLD_SHOP);
    t := AddressRound(START, AddressOrder(500_000, OLD_SHOP, OLD_SHOP, START.nextKey), 0);
  }

  function WithContact(s: State): State {
    s.(contacts := map[(BEN, OLD_SHOP) := Contact(None, Some(SHOP))])
  }

  function WithCap(s: State): State {
    s.(rules := [RuleRow(BEN, CAP, true)])
  }

  lemma ContactIsSaved(s: State)
    requires Ready(s) && s.contacts == map[]
    ensures Step(SceneConfig(), s, SAVE) == WithContact(s)
  {
    hide Step;
    Served(s, SAVE.m.intent, PLAIN);
    assert Lower(OLD_SHOP) == OLD_SHOP;
    assert SaveContactFx(SceneConfig(), s, BEN, OLD_SHOP, SHOP).0 == WithContact(s);
  }

  lemma CapIsDrafted(s: State)
    requires Ready(s)
    ensures Step(SceneConfig(), s, FREEZE) == s.PutPending(BEN, Some(PPolicy([CAP])))
  {
    hide Step;
    Served(s, FREEZE.m.intent, PLAIN);
  }

  lemma CapIsFrozen(s: State)
    requires Ready(s) && s.rules == []
    ensures Step(SceneConfig(), s.PutPending(BEN, Some(PPolicy([CAP]))), YES) == WithCap(s)
  {
    hide Step;
    var t := s.PutPending(BEN, Some(PPolicy([CAP])));
    Spoken(t, ANSWER, PLAIN);
    assert t.WithUser(BEN) == t && t.ClearFails(BEN) == t;
    assert FreezeRows(RevokeRows([], BEN), BEN, [CAP]) == [RuleRow(BEN, CAP, true)];
    assert t.sessions - {BEN} == s.sessions;
    assert ConfirmRulesFx(SceneConfig(), t, 0, BEN, [CAP], Some("1234")).0 == WithCap(s);
    assert ConfirmFx(SceneConfig(), t, 0, BEN, Some("1234"), false, PLAIN).0 == WithCap(s);
  }

  lemma SlipIsTheContact(s: State)
    ensures Resolve(SceneConfig(), WithContact(s), BEN, SLIP) == Some(Payee(OLD_SHOP, Some(SHOP), None, false))
  {
    assert Lower(SLIP) == OLD_SHOP;
    assert Trim(SLIP) == SLIP;
  }

  /** Ben once paid the old shop half a dollar, and only that. */
  predicate PaidOnce(s: State) {
    Ready(s) && s.ledger == [LedgerRow(BEN, Send, 500_000, Some(OLD_SHOP), 0)] && s.locks == []
  }

  lemma CapIsInForce(s: State)
    requires PaidOnce(s)
    ensures WithCap(s).Rules(BEN) == [CAP] && s.HasPaid(BEN, OLD_SHOP) && !s.HasPaid(BEN, SHOP) && SentToday(s, BEN, 0) == 500_000
  {
    assert s.ledger[..0] == [];
    assert WithCap(s).rules[..0] == [];
    assert ActiveRules([], BEN) == [];
    assert SumTo([], BEN, OLD_SHOP) == 0 && SumTo([], BEN, SHOP) == 0;
    assert SumKind([], BEN, Send, 0) == 0 && SumKind([], BEN, EscrowHold, 0) == 0;
  }

  lemma SlipPasses(s: State)
    requires PaidOnce(s)
    ensures SendGate(SceneConfig(), WithCap(s), 0, BEN, 5_000_000, OLD_SHOP, None) == (Confirm, WithCap(s))
  {
    hide SumKind, SumTo, ActiveRules;
    var u := WithCap(s);
    CapIsInForce(s);
    Unlocked(u);
    AcceptedMeansNoRuleBroken(u.Rules(BEN), 5_000_000, OLD_SHOP, None, u.HasPaid(BEN, OLD_SHOP));
    assert SentToday(u, BEN, 0) == SentToday(s, BEN, 0);
  }

  lemma SlipIsOrdered(s: State)
    requires PaidOnce(s) && s.contacts == map[(BEN, OLD_SHOP) := Contact(None, Some(SHOP))]
    ensures Step(SceneConfig(), WithCap(s), SECOND) == Ordered(WithCap(s), AddressOrder(5_000_000, OLD_SHOP, SHOP, s.nextKey))
  {
    hide Step, Resolve, SendGate;
    var u := WithCap(s);
    Asked(u, SECOND.m.intent);
    assert WithContact(u) == u;
    SlipIsTheContact(u);
    SlipPasses(s);
  }

  /** The state in which the second payment is confirmed, and the one it leads to. */
  lemma SecondIsPaid() returns (s: State, t: State)
    ensures s == Play(START, REST[..6]) && t == Play(START, REST[..7])
    ensures Sends(s, t, BEN, LedgerRow(BEN, Send, 5_000_000, Some(SHOP), 0))
    ensures s.Rules(BEN) == [CAP] && !s.HasPaid(BEN, SHOP)
  {
    hide Step;
    var s2 := FirstIsPaid();
    ContactIsSaved(s2);
    var s3 := WithContact(s2);
    CapIsDrafted(s3);
    CapIsFrozen(s3);
    SlipIsOrdered(s3);
    CapIsInForce(s3);
    BenIsBen();
    var m := AddressOrder(5_000_000, OLD_SHOP, SHOP, s3.nextKey);
    s := Ordered(WithCap(s3), m);
    t := AddressRound(WithCap(s3), m, 0);
    Played(s2, s3, s, t);
    assert s.ledger == s3.ledger && s.rules == WithCap(s3).rules;
    assert t.ledger[|s.ledger|..] == [LedgerRow(BEN, Send, 5_000_000, Some(SHOP), 0)];
  }

  lemma Played(s2: State, s3: State, s: State, t: State)
    requires s2 == Step(SceneConfig(), Step(SceneConfig(), START, FIRST), YES) && s3 == Step(SceneConfig(), s2, SAVE)
    requires s == Step(SceneConfig(), Step(SceneConfig(), Step(SceneConfig(), s3, FREEZE), YES), SECOND) && t == Step(SceneConfig(), s, YES)
    ensures s == Play(START, REST[..6]) && t == Play(START, REST[..7])
  {
    hide Step;
    assert REST[..0] == [];
    assert REST[..1][..0] == REST[..0] && REST[..2][..1] == REST[..1] && REST[..3][..2] == REST[..2] && REST[..4][..3] == REST[..3];
    assert REST[..5][..4] == REST[..4] && REST[..6][..5] == REST[..5] && REST[..7][..6] == REST[..6];
    assert Play(START, REST[..1]) == Step(SceneConfig(), START, FIRST);
    assert Play(START, REST[..2]) == s2;
    assert Play(START, REST[..3]) == s3;
    assert Play(START, REST[..5]) == Step(SceneConfig(), Step(SceneConfig(), s3, FREEZE), YES);
  }

  lemma BenSaysTheRest()
    ensures forall k | 0 <= k < |REST| :: FromPeople(SceneConfig(), REST[k]) && REST[k].at == 0
  {
    hide FromPeople;
    BenIsAPerson(FIRST.m.intent, PLAIN);
    BenIsAPerson(ANSWER, PLAIN);
    BenIsAPerson(SAVE.m.intent, PLAIN);
    BenIsAPerson(FREEZE.m.intent, PLAIN);
    BenIsAPerson(SECOND.m.intent, PLAIN);
  }

  /** Step k of the run books a first payment above a cap that is in force. */
  ghost predicate Misses(run: seq<Input>, t: seq<State>, k: nat, row: LedgerRow) {
    && Run(SceneConfig(), run, t) && k < |run| && Sends(t[k], t[k + 1], BEN, row)
    && CAP in t[k].Rules(BEN) && IsCap(CAP, 1_000_000) && row.amount > 1_000_000
    && row.counterparty == Some(SHOP) && !t[k].HasPaid(BEN, SHOP)
  }

  lemma SceneMisses(s: State, u: State, row: LedgerRow)
    requires s == Play(START, REST[..6]) && u == Play(START, REST[..7]) && Sends(s, u, BEN, row)
    requires CAP in s.Rules(BEN) && row.amount > 1_000_000 && row.counterparty == Some(SHOP) && !s.HasPaid(BEN, SHOP)
    ensures Misses(SETUP + REST, States(SceneConfig(), SETUP + REST), |SETUP| + 6, row)
  {
    hide Run, States, Play, Sends, FromPeople;
    BenSaysTheRest();
    SceneIsARun(REST);
    var t := States(SceneConfig(), SETUP + REST);
    assert t[|SETUP| + 6] == Play(START, REST[..6]) && t[|SETUP| + 7] == Play(START, REST[..7]);
  }

  /** The cap can be missed in a run from empty tables: while a cap of one dollar for new payees is in
      force, a first payment of five dollars to an address is booked. */
  lemma TheCapCanBeMissed()
    ensures exists run: seq<Input>, t: seq<State>, k: nat, row: LedgerRow :: Misses(run, t, k, row)
  {
    hide Misses, Sends, States, Play;
    var s, u := SecondIsPaid();
    SceneMisses(s, u, LedgerRow(BEN, Send, 5_000_000, Some(SHOP), 0));
  }
}
