/** A concrete run that pays one claim twice.  Ben holds five dollars for a stranger, twice; both claims
    run out; the refund of the first one throws although the money moved, and the next expiry job refunds
    it again, with the money of the second claim. */
module PaidTwice {
  import opened Text
  import opened Tables
  import opened Settings
  import opened Policy
  import opened Payees
  import opened Pipeline
  import opened Runs
  import opened Claims
  import opened Escrow
  import opened Overpaid
  import opened Scenes

  const STRANGER: Phone := "+2"
  const WEEK: nat := 604_800_000
  const CLAIM := Claim(BEN, STRANGER, 5_000_000, Held, WEEK, 0)

  const HOLD := Say(SendTo(5_000_000, STRANGER, ""))
  const LEAK := [LandedButThrew(0)]
  const LAND := [Landed(0)]
  const REST := [HOLD, YES, HOLD, YES, ExpiryJob(WEEK, LEAK), ExpiryJob(WEEK, LAND)]
  const OPS := [Sweep(WEEK, LEAK), Sweep(WEEK, LAND)]

  /** Ben has n claims for the stranger in escrow. */
  predicate Holding(s: State, n: nat) {
    && Free(s) && s.contacts == map[] && STRANGER !in s.users && s.claims == seq(n, _ => CLAIM)
    && s.Bal(BEN) == 40_000_000 - n * 5_000_000 && s.Bal("escrow") == n * 5_000_000
    && SentToday(s, BEN, 0) == n * 5_000_000
  }

  lemma StartHoldsNothing()
    ensures Holding(START, 0)
  {
    SetUp();
    WalletsDiffer(BEN, "escrow");
  }

  function HoldOrder(key: Key): Pending {
    PSend(5_000_000, STRANGER, None, Some(STRANGER), true, key, "")
  }

  lemma StrangerResolves(s: State)
    requires s.contacts == map[] && STRANGER !in s.users
    ensures Resolve(SceneConfig(), s, BEN, STRANGER) == Some(Payee(STRANGER, None, Some(STRANGER), true))
  {
    assert Trim(STRANGER) == STRANGER;
    assert Lower(STRANGER) == STRANGER;
    assert DigitsAndPlus(STRANGER) == STRANGER;
    assert NormalizePhone(STRANGER) == STRANGER;
  }

  lemma HoldPasses(s: State, n: nat)
    requires Holding(s, n) && n < 2
    ensures SendGate(SceneConfig(), s, 0, BEN, 5_000_000, STRANGER, Some(STRANGER)) == (Confirm, s)
  {
    hide SumKind, SumTo;
    Unlocked(s);
    assert s.Rules(BEN) == [];
    assert LimitsFor(SceneConfig(), s.Tier(BEN)) == LIMIT;
  }

  lemma HoldIsOrdered(s: State, n: nat)
    requires Holding(s, n) && n < 2
    ensures Step(SceneConfig(), s, HOLD) == Ordered(s, HoldOrder(s.nextKey))
  {
    hide Step, Resolve, SendGate, SentToday;
    Asked(s, HOLD.m.intent);
    StrangerResolves(s);
    HoldPasses(s, n);
  }

  lemma {:induction false} HoldsOpened(n: nat)
    ensures ClaimsOpened(seq(n, _ => CLAIM), BEN, 0) == n
  {
    if n > 0 {
      HoldsOpened(n - 1);
      assert seq(n, _ => CLAIM)[..n - 1] == seq(n - 1, _ => CLAIM);
    }
  }

  /** The money of a hold has arrived in the escrow. */
  lemma HoldIsMoved(s: State, n: nat) returns (u: State)
    requires BEN in s.users && s.claims == seq(n, _ => CLAIM) && s.Bal(BEN) >= 5_000_000 && n < 2
    ensures Hold(SceneConfig(), s, 0, BEN, STRANGER, 5_000_000, Landed(0))
         == (u.(claims := s.claims + [CLAIM], ledger := s.ledger + [LedgerRow(BEN, EscrowHold, 5_000_000, Some(STRANGER), 0)]), Some(n))
    ensures u == s.(users := u.users, balance := u.balance) && BEN in u.users && u.users[BEN] == s.users[BEN]
    ensures STRANGER !in s.users ==> STRANGER !in u.users
    ensures u.Bal(BEN) == s.Bal(BEN) - 5_000_000 && u.Bal("escrow") == s.Bal("escrow") + 5_000_000
  {
    hide State.Transfer, WithEscrow;
    HoldsOpened(n);
    var e := WithEscrow(SceneConfig(), s);
    EscrowUserChangesNothing(SceneConfig(), s);
    EscrowIsNobodyElse(s);
    TransferIsExact(e, BEN, "escrow", 5_000_000, Landed(0));
    u := e.Transfer(BEN, WalletOf("escrow"), 5_000_000, Landed(0)).0;
  }

  lemma EscrowIsNobodyElse(s: State)
    ensures var e := WithEscrow(SceneConfig(), s);
            && (BEN in s.users ==> BEN in e.users && e.users[BEN] == s.users[BEN]) && (STRANGER !in s.users ==> STRANGER !in e.users)
  {
  }

  lemma HoldIsPaid(s: State, n: nat) returns (t: State)
    requires Holding(s, n) && n < 2
    ensures t == SendFx(SceneConfig(), Ordered(s, HoldOrder(s.nextKey)), 0, BEN, HoldOrder(s.nextKey), Landed(0)).0
    ensures Holding(t, n + 1)
  {
    hide Hold, SumKind, SentToday;
    var m := HoldOrder(s.nextKey);
    var o := Ordered(s, m);
    var s1 := o.(idem := o.idem[m.key := InFlight]);
    var u := HoldIsMoved(s1, n);
    var row := LedgerRow(BEN, EscrowHold, 5_000_000, Some(STRANGER), 0);
    var w := u.(claims := s1.claims + [CLAIM], ledger := s1.ledger + [row]);
    t := FinishFx(w, BEN, m.key, HeldFor(5_000_000, n)).0;
    assert SendFx(SceneConfig(), o, 0, BEN, m, Landed(0)).0 == t;
    assert t.sessions == s.sessions;
    PaidHold(s, u, t, n, row);
  }

  lemma PaidHold(s: State, u: State, t: State, n: nat, row: LedgerRow)
    requires Holding(s, n) && row == LedgerRow(BEN, EscrowHold, 5_000_000, Some(STRANGER), 0)
    requires t.ledger == s.ledger + [row] && t.claims == s.claims + [CLAIM] && t.balance == u.balance && t.users == u.users
    requires t.sessions == s.sessions && t.rules == s.rules && t.locks == s.locks && t.contacts == s.contacts && t.nextKey == s.nextKey + 1
    requires t.idem.Keys == s.idem.Keys + {s.nextKey}
    requires BEN in u.users && u.users[BEN] == s.users[BEN] && STRANGER !in u.users
    requires u.Bal(BEN) == s.Bal(BEN) - 5_000_000 && u.Bal("escrow") == s.Bal("escrow") + 5_000_000
    ensures Holding(t, n + 1)
  {
    hide SumKind;
    OneMoreSend(s.ledger, row);
    assert seq(n + 1, _ => CLAIM) == seq(n, _ => CLAIM) + [CLAIM];
    assert t.Bal(BEN) == u.Bal(BEN) && t.Bal("escrow") == u.Bal("escrow");
    assert SentToday(t, BEN, 0) == SentToday(s, BEN, 0) + 5_000_000;
  }

  lemma OneMoreSend(rows: seq<LedgerRow>, r: LedgerRow)
    requires r.phone == BEN && r.kind == EscrowHold && r.at == 0
    ensures SumKind(rows + [r], BEN, Send, 0) == SumKind(rows, BEN, Send, 0)
    ensures SumKind(rows + [r], BEN, EscrowHold, 0) == SumKind(rows, BEN, EscrowHold, 0) + r.amount
  {
    assert (rows + [r])[..|rows + [r]| - 1] == rows;
  }

  lemma HoldRound(s: State, n: nat) returns (t: State)
    requires Holding(s, n) && n < 2
    ensures t == Step(SceneConfig(), Step(SceneConfig(), s, HOLD), YES) && Holding(t, n + 1)
  {
    hide Step, SendFx;
    HoldIsOrdered(s, n);
    YesPays(s, HoldOrder(s.nextKey), PLAIN);
    t := HoldIsPaid(s, n);
  }

  // ----- the two sweeps -----

  /** Two claims, the second still held, and so much in the escrow. */
  predicate Swept(s: State, first: ClaimStatus, b: nat) {
    && BEN in s.users && s.claims == [CLAIM.(status := first), CLAIM] && s.Bal("escrow") == b
  }

  lemma BothAreDue(s: State)
    requires Swept(s, Held, s.Bal("escrow"))
    ensures HeldPast(s.claims, WEEK) == [0, 1] && Listed(s.claims, [0, 1])
  {
    assert s.claims[..1][..0] == [];
    assert HeldPast(s.claims[..1][..0], WEEK) == [];
    assert HeldPast(s.claims[..1], WEEK) == [0];
  }

  /** An expiry job whose second transfer fails: the first refund leaks or lands. */
  lemma SweepRefunds(s: State, o: Outcome) returns (t: State)
    requires Swept(s, Held, s.Bal("escrow")) && s.Bal("escrow") >= 5_000_000 && (o == Landed(0) || o == LandedButThrew(0))
    ensures t == Operate(SceneConfig(), s, Sweep(WEEK, [o]))
    ensures Swept(t, if o.Landed? then Refunded else Held, s.Bal("escrow") - 5_000_000)
    ensures OpOut(SceneConfig(), s, Sweep(WEEK, [o]), 0, false) == 5_000_000
  {
    hide WithEscrow, PayOne, HeldSum;
    var c, e := SceneConfig(), WithEscrow(SceneConfig(), s);
    BothAreDue(s);
    EscrowUserChangesNothing(c, s);
    EscrowIsNobodyElse(s);
    var t1 := PayOne(c, e, WEEK, 0, Refund, o).0;
    FirstTurn(c, e, o, t1);
    t := PayOne(c, t1, WEEK, 1, Refund, Threw(0)).0;
    SecondTurn(c, e, t1, t);
    TwoTurns(c, e, o, t1, t);
    FlowsOfTurns(c, e, o, t1, t);
  }

  lemma FirstTurn(c: Config, e: State, o: Outcome, t1: State)
    requires c == SceneConfig() && Swept(e, Held, e.Bal("escrow")) && e.Bal("escrow") >= 5_000_000 && (o == Landed(0) || o == LandedButThrew(0))
    requires "escrow" in e.users && t1 == PayOne(c, e, WEEK, 0, Refund, o).0
    ensures Swept(t1, if o.Landed? then Refunded else Held, e.Bal("escrow") - 5_000_000) && t1.users == e.users && PaidOut(c, e, 0, o) == 5_000_000
  {
    hide PayOne, HeldSum;
    PayOneIsExact(c, e, WEEK, 0, Refund, o);
    var s2 := t1.claims;
    assert |s2| == 2 && s2[1] == e.claims[1];
    SlackOfFirst(c, e, t1, o);
  }

  /** The balance follows from the slack and the claims. */
  lemma SlackOfFirst(c: Config, e: State, t1: State, o: Outcome)
    requires c == SceneConfig() && Swept(e, Held, e.Bal("escrow")) && e.Bal("escrow") >= 5_000_000 && (o == Landed(0) || o == LandedButThrew(0))
    requires |t1.claims| == 2 && t1.claims == [CLAIM.(status := if o.Landed? then Refunded else Held), CLAIM]
    requires Slack(c, t1) == Slack(c, e) + PayGain(c, e, 0, o)
    ensures t1.Bal("escrow") == e.Bal("escrow") - 5_000_000
  {
    TwoHeld(e.claims, Held);
    TwoHeld(t1.claims, if o.Landed? then Refunded else Held);
  }

  lemma TwoHeld(claims: seq<Claim>, first: ClaimStatus)
    requires claims == [CLAIM.(status := first), CLAIM]
    ensures HeldSum(claims) == if first == Held then 10_000_000 else 5_000_000
  {
    assert claims[..1][..0] == [];
    assert HeldSum(claims[..1]) == if first == Held then 5_000_000 else 0;
  }

  lemma SecondTurn(c: Config, e: State, t1: State, t: State)
    requires c == SceneConfig() && "escrow" in t1.users && t1.users == e.users
    requires |t1.claims| == 2 && t1.claims[1] == CLAIM && BEN in t1.users && t1.claims[0].from == BEN
    requires t == PayOne(c, t1, WEEK, 1, Refund, Threw(0)).0
    ensures t.claims == t1.claims && t.Bal("escrow") == t1.Bal("escrow") && t.users == t1.users
  {
    hide PayOne, HeldSum;
    PayOneIsExact(c, t1, WEEK, 1, Refund, Threw(0));
  }

  lemma TwoTurns(c: Config, e: State, o: Outcome, t1: State, t: State)
    requires |e.claims| == 2 && t1 == PayOne(c, e, WEEK, 0, Refund, o).0 && t == PayOne(c, t1, WEEK, 1, Refund, Threw(0)).0
    ensures PayMany(c, e, WEEK, [0, 1], Refund, [o], 2).0 == t && PayMany(c, e, WEEK, [0, 1], Refund, [o], 1).0 == t1
  {
    hide PayOne;
  }

  lemma FlowsOfTurns(c: Config, e: State, o: Outcome, t1: State, t: State)
    requires |e.claims| == 2 && Listed(e.claims, [0, 1])
    ensures JobOut(c, e, WEEK, [0, 1], Refund, [o], 2, 0, false) == PaidOut(c, e, 0, o)
  {
    hide PayOne, PaidOut;
    OneTurnEach(c, e, WEEK, [0, 1], Refund, [o], 2, 0, false);
    assert [0, 1][0] == 0;
  }

  lemma BensSweeps() returns (s: State, t: State, u: State)
    ensures s == Play(START, REST[..4]) && t == Play(START, REST[..5]) && u == Play(START, REST[..6])
    ensures s.claims == [CLAIM, CLAIM] && s.Bal("escrow") == 10_000_000 && BEN in s.users
    ensures t == Operate(SceneConfig(), s, OPS[0]) && u == Operate(SceneConfig(), t, OPS[1])
    ensures Swept(u, Refunded, 0)
    ensures OpOut(SceneConfig(), s, OPS[0], 0, false) == 5_000_000 && OpOut(SceneConfig(), t, OPS[1], 0, false) == 5_000_000
  {
    hide Step, Operate;
    StartHoldsNothing();
    var s1 := HoldRound(START, 0);
    s := HoldRound(s1, 1);
    assert s.claims == [CLAIM, CLAIM];
    t := SweepRefunds(s, LandedButThrew(0));
    u := SweepRefunds(t, Landed(0));
    Sweeps(s, LEAK);
    Sweeps(t, LAND);
    Played(s1, s, t, u);
  }

  lemma Sweeps(s: State, outcomes: seq<Outcome>)
    ensures Step(SceneConfig(), s, ExpiryJob(WEEK, outcomes)) == Operate(SceneConfig(), s, Sweep(WEEK, outcomes))
  {
  }

  lemma Played(s1: State, s: State, t: State, u: State)
    requires s1 == Step(SceneConfig(), Step(SceneConfig(), START, HOLD), YES) && s == Step(SceneConfig(), Step(SceneConfig(), s1, HOLD), YES)
    requires t == Step(SceneConfig(), s, REST[4]) && u == Step(SceneConfig(), t, REST[5])
    ensures s == Play(START, REST[..4]) && t == Play(START, REST[..5]) && u == Play(START, REST[..6])
  {
    hide Step;
    assert REST[..1][..0] == [] && REST[..2][..1] == REST[..1] && REST[..3][..2] == REST[..2] && REST[..4][..3] == REST[..3];
    assert REST[..5][..4] == REST[..4] && REST[..6][..5] == REST[..5];
    assert Play(START, REST[..1]) == Step(SceneConfig(), START, HOLD);
    assert Play(START, REST[..2]) == s1;
    assert Play(START, REST[..3]) == Step(SceneConfig(), s1, HOLD);
  }

  /** The last two inputs of the run are expiry jobs that take twice its amount out of the escrow for
      claim 0, and what is left does not cover the other claim. */
  ghost predicate PaysTwice(run: seq<Input>, t: seq<State>, k: nat) {
    && Run(SceneConfig(), run, t) && k + 2 == |run|
    && run[k..] == [ExpiryJob(WEEK, LEAK), ExpiryJob(WEEK, LAND)]
    && EscrowRun(SceneConfig(), OPS, t[k..]) && |t[k].claims| > 0
    && OutOf(SceneConfig(), OPS, t[k..], 2, 0, false) == 2 * t[k].claims[0].amount > 0
    && HeldSum(t[k + 2].claims) > t[k + 2].Bal("escrow")
  }

  lemma TwoClaims(s: State)
    requires s.claims == [CLAIM, CLAIM] && s.Bal("escrow") == 10_000_000 && BEN in s.users
    ensures Grounded(SceneConfig(), s) && Slack(SceneConfig(), s) >= 0
  {
    assert s.claims[..1][..0] == [];
    assert HeldSum(s.claims[..1]) == 5_000_000;
  }

  lemma SweptFallsShort(u: State)
    requires Swept(u, Refunded, 0)
    ensures HeldSum(u.claims) > u.Bal("escrow")
  {
    assert u.claims[..1][..0] == [];
    assert HeldSum(u.claims[..1]) == 0;
  }

  lemma BenSaysTheRest()
    ensures forall k | 0 <= k < |REST| :: FromPeople(SceneConfig(), REST[k])
    ensures forall j, k | 0 <= j < k < |REST| :: REST[j].at <= REST[k].at
  {
    hide FromPeople;
    BenIsAPerson(HOLD.m.intent, PLAIN);
    BenIsAPerson(ANSWER, PLAIN);
    SweepsAreNobodys(LEAK);
    SweepsAreNobodys(LAND);
  }

  lemma SweepsAreNobodys(outcomes: seq<Outcome>)
    ensures FromPeople(SceneConfig(), ExpiryJob(WEEK, outcomes))
  {
  }

  lemma SweepsAreAnEscrowRun(s: State, t: State, u: State)
    requires Grounded(SceneConfig(), s) && Slack(SceneConfig(), s) >= 0
    requires t == Operate(SceneConfig(), s, OPS[0]) && u == Operate(SceneConfig(), t, OPS[1])
    ensures EscrowRun(SceneConfig(), OPS, [s, t, u])
    ensures OutOf(SceneConfig(), OPS, [s, t, u], 2, 0, false)
         == OpOut(SceneConfig(), s, OPS[0], 0, false) + OpOut(SceneConfig(), t, OPS[1], 0, false)
  {
    hide Operate, OpOut, Grounded, Slack;
    assert OutOf(SceneConfig(), OPS, [s, t, u], 1, 0, false) == OpOut(SceneConfig(), s, OPS[0], 0, false);
  }

  /** A run from empty tables pays one claim twice. */
  lemma OneClaimCanBePaidTwice()
    ensures exists run: seq<Input>, t: seq<State>, k: nat :: PaysTwice(run, t, k)
  {
    hide Run, States, Play, FromPeople, Operate, OpOut, OutOf, EscrowRun, Swept, HeldSum;
    BenSaysTheRest();
    SceneIsARun(REST);
    var s, t, u := BensSweeps();
    TwoClaims(s);
    SweptFallsShort(u);
    SweepsAreAnEscrowRun(s, t, u);
    var run, all := SETUP + REST, States(SceneConfig(), SETUP + REST);
    assert all[|SETUP| + 4] == s && all[|SETUP| + 5] == t && all[|SETUP| + 6] == u;
    assert all[|SETUP| + 4..] == [s, t, u];
    assert run[|SETUP| + 4..] == [ExpiryJob(WEEK, LEAK), ExpiryJob(WEEK, LAND)];
    assert PaysTwice(run, all, |SETUP| + 4);
  }
}
