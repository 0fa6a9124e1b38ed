/** A concrete run that spends twice the daily cap: twenty dollars swapped first, then four sends of
    five dollars.  The send gate does not count the swap, so every step is accepted. */
module Spree {
  import opened Text
  import opened Tables
  import opened Settings
  import opened Policy
  import opened Pipeline
  import opened Runs
  import opened Daily
  import opened Scenes

  const SWAP := Say(SwapFor(20_000_000, USDC, EURC))
  const PAY := Say(SendTo(5_000_000, SHOP, ""))

  function SwapOrder(key: Key): Pending {
    PSwap(20_000_000, USDC, EURC, key)
  }

  function SendOrder(key: Key): Pending {
    AddressOrder(5_000_000, SHOP, SHOP, key)
  }

  lemma SwapPasses(s: State)
    requires Free(s) && SumSends(s.ledger, BEN, 0) == 0 && SumOther(s.ledger, BEN, 0) == 0
    ensures SwapGate(SceneConfig(), s, 0, BEN, 20_000_000, USDC, EURC) == (Confirm, s)
  {
    Unlocked(s);
    assert SpentToday(s, BEN, 0) == 0;
    assert LimitsFor(SceneConfig(), s.Tier(BEN)) == LIMIT;
  }

  lemma SwapAsked(s: State)
    requires Free(s)
    ensures Step(SceneConfig(), s, SWAP) == RequestSwapFx(SceneConfig(), s, 0, BEN, 20_000_000, USDC, EURC).0
  {
    hide RequestSwapFx, Step;
    Asked(s, SwapFor(20_000_000, USDC, EURC));
  }

  lemma SwapRequested(s: State)
    requires SwapGate(SceneConfig(), s, 0, BEN, 20_000_000, USDC, EURC) == (Confirm, s)
    ensures RequestSwapFx(SceneConfig(), s, 0, BEN, 20_000_000, USDC, EURC).0 == Ordered(s, SwapOrder(s.nextKey))
  {
    hide SwapGate;
  }

  lemma SwapIsOrdered(s: State)
    requires Free(s) && SumSends(s.ledger, BEN, 0) == 0 && SumOther(s.ledger, BEN, 0) == 0
    ensures Step(SceneConfig(), s, SWAP) == Ordered(s, SwapOrder(s.nextKey))
  {
    hide Step, RequestSwapFx, SwapGate, SumSends, SumOther;
    SwapPasses(s);
    SwapRequested(s);
    SwapAsked(s);
  }

  lemma SendIsOrdered(s: State)
    requires Free(s) && SumSends(s.ledger, BEN, 0) + 5_000_000 <= 20_000_000
    ensures Step(SceneConfig(), s, PAY) == Ordered(s, SendOrder(s.nextKey))
  {
    hide Step, SumKind;
    assert SentToday(s, BEN, 0) == SumSends(s.ledger, BEN, 0);
    AddressIsOrdered(s, 5_000_000, SHOP);
  }

  lemma SwapIsPaid(s: State) returns (t: State)
    requires Free(s) && s.Bal(BEN) >= 20_000_000
    ensures t == SwapFx(Ordered(s, SwapOrder(s.nextKey)), 0, BEN, SwapOrder(s.nextKey), Landed(0), 0).0
    ensures Free(t) && t.Bal(BEN) == s.Bal(BEN) - 20_000_000
    ensures t.ledger == s.ledger + [LedgerRow(BEN, Swap, 20_000_000, None, 0)]
  {
    BenIsBen();
    var m := SwapOrder(s.nextKey);
    var o := Ordered(s, m);
    var s1 := o.(idem := o.idem[m.key := InFlight]);
    var s2 := s1.Credit(WalletOf(BEN), -20_000_000).Credit(POOL, 20_000_000);
    assert SwapMove(s1, BEN, m, Landed(0), 0) == (s2, true);
    t := FinishFx(s2.AddRow(LedgerRow(BEN, Swap, 20_000_000, None, 0)), BEN, m.key, Swapped(20_000_000, 0)).0;
  }

  lemma SwapRound(s: State) returns (t: State)
    requires Free(s) && SumSends(s.ledger, BEN, 0) == 0 && SumOther(s.ledger, BEN, 0) == 0 && s.Bal(BEN) >= 20_000_000
    ensures t == Step(SceneConfig(), Step(SceneConfig(), s, SWAP), YES)
    ensures Free(t) && t.Bal(BEN) == s.Bal(BEN) - 20_000_000
    ensures t.ledger == s.ledger + [LedgerRow(BEN, Swap, 20_000_000, None, 0)]
  {
    hide Step, SumKind;
    SwapIsOrdered(s);
    YesPays(s, SwapOrder(s.nextKey), PLAIN);
    t := SwapIsPaid(s);
  }

  /** What Ben has spent today, at or under the soft cap and otherwise. */
  predicate HasSpent(s: State, sent: nat, other: nat) {
    SumSends(s.ledger, BEN, 0) == sent && SumSoft(s.ledger, BEN, 0, LIMIT.perTx) == sent && SumOther(s.ledger, BEN, 0) == other
  }

  lemma SendOrderIsOne(s: State)
    ensures var m := SendOrder(s.nextKey);
            m.PSend? && m.amount == 5_000_000 && m.toAddress == Some(SHOP) && m == AddressOrder(m.amount, m.toLabel, m.toAddress.Or(""), s.nextKey)
  {
  }

  lemma SendAdds(rows: seq<LedgerRow>, r: LedgerRow)
    requires r == LedgerRow(BEN, Send, 5_000_000, Some(SHOP), 0)
    ensures SumSends(rows + [r], BEN, 0) == SumSends(rows, BEN, 0) + 5_000_000
    ensures SumSoft(rows + [r], BEN, 0, LIMIT.perTx) == SumSoft(rows, BEN, 0, LIMIT.perTx) + 5_000_000
    ensures SumOther(rows + [r], BEN, 0) == SumOther(rows, BEN, 0)
  {
    assert (rows + [r])[..|rows + [r]| - 1] == rows;
  }

  lemma SendRound(s: State, sent: nat, other: nat) returns (t: State)
    requires Free(s) && HasSpent(s, sent, other) && sent + 5_000_000 <= 20_000_000 && s.Bal(BEN) >= 5_000_000
    ensures t == Step(SceneConfig(), Step(SceneConfig(), s, PAY), YES)
    ensures Free(t) && t.Bal(BEN) == s.Bal(BEN) - 5_000_000
    ensures HasSpent(t, sent + 5_000_000, other)
  {
    hide Step, SumKind, SumSoft, SendOrder;
    SendIsOrdered(s);
    BenIsBen();
    SendOrderIsOne(s);
    t := AddressRound(s, SendOrder(s.nextKey), 0);
    SendAdds(s.ledger, LedgerRow(BEN, Send, 5_000_000, Some(SHOP), 0));
  }

  /** n sends, each requested and confirmed. */
  function Sends(n: nat): seq<Input> {
    if n == 0 then [] else Sends(n - 1) + [PAY, YES]
  }

  const SPREE := SETUP + [SWAP, YES] + Sends(4)

  /** The state n sends later. */
  function PayOn(s: State, n: nat): State {
    if n == 0 then s
    else Step(SceneConfig(), Step(SceneConfig(), PayOn(s, n - 1), PAY), YES)
  }

  lemma {:induction false} ExecSends(run: seq<Input>, n: nat)
    ensures Exec(SceneConfig(), run + Sends(n)) == PayOn(Exec(SceneConfig(), run), n)
  {
    hide Step;
    if n == 0 {
      assert run + Sends(0) == run;
    } else {
      ExecSends(run, n - 1);
      TwoMore(run + Sends(n - 1), PAY, YES);
      assert run + Sends(n) == run + Sends(n - 1) + [PAY, YES];
    }
  }

  lemma {:induction false} SendsSpend(s: State, n: nat, other: nat)
    requires n <= 4 && Free(s) && HasSpent(s, 0, other) && s.Bal(BEN) == 20_000_000
    ensures Free(PayOn(s, n)) && HasSpent(PayOn(s, n), n * 5_000_000, other)
    ensures PayOn(s, n).Bal(BEN) == 20_000_000 - n * 5_000_000
  {
    if n > 0 {
      SendsSpend(s, n - 1, other);
      var t := SendRound(PayOn(s, n - 1), (n - 1) * 5_000_000, other);
    }
  }

  lemma NothingSpent(rows: seq<LedgerRow>)
    requires rows == []
    ensures SumSends(rows, BEN, 0) == 0 && SumOther(rows, BEN, 0) == 0
  {
  }

  lemma OneSwap(rows: seq<LedgerRow>, t: State)
    requires rows == [] && t.ledger == rows + [LedgerRow(BEN, Swap, 20_000_000, None, 0)]
    ensures HasSpent(t, 0, 20_000_000)
  {
    var r := LedgerRow(BEN, Swap, 20_000_000, None, 0);
    NothingSpent(rows);
    OneMoreRow(rows, r, BEN, 0, LIMIT.perTx);
    assert t.ledger[..|t.ledger| - 1] == rows;
    assert SumKind(t.ledger, BEN, Send, 0) == 0 && SumKind(t.ledger, BEN, EscrowHold, 0) == 0;
  }

  lemma SwapFirst(s: State) returns (t: State)
    requires Free(s) && s.ledger == [] && s.Bal(BEN) == 40_000_000
    ensures t == Step(SceneConfig(), Step(SceneConfig(), s, SWAP), YES)
    ensures Free(t) && t.Bal(BEN) == 20_000_000 && t.ledger == s.ledger + [LedgerRow(BEN, Swap, 20_000_000, None, 0)]
  {
    NothingSpent(s.ledger);
    t := SwapRound(s);
  }

  lemma {:induction false} SendsAtOnce(n: nat)
    ensures AllAtOnce(Sends(n))
  {
    if n > 0 {
      BenIsAPerson(PAY.m.intent, PLAIN);
      BenIsAPerson(ANSWER, PLAIN);
      SendsAtOnce(n - 1);
    }
  }

  lemma SpreeIsARun()
    ensures Run(SceneConfig(), SPREE, States(SceneConfig(), SPREE))
    ensures |States(SceneConfig(), SPREE)| == |SPREE| + 1 && States(SceneConfig(), SPREE)[|SPREE|] == Exec(SceneConfig(), SPREE)
  {
    hide Step, Exec, States;
    SendsAtOnce(4);
    StartIsAtOnce();
    BenIsAPerson(SWAP.m.intent, PLAIN);
    BenIsAPerson(ANSWER, PLAIN);
    assert AllAtOnce([SWAP, YES]);
    assert AllAtOnce(SPREE);
    ExecutionIsARun(SceneConfig(), SPREE);
  }

  /** The last state of the spree. */
  lemma SpreeEnds()
    ensures var s := Exec(SceneConfig(), SPREE);
            LimitsFor(SceneConfig(), s.Tier(BEN)) == LIMIT && HasSpent(s, 20_000_000, 20_000_000)
  {
    hide Step, Exec, HasSpent, SumKind, SumSoft;
    SetUp();
    TwoMore(SETUP, SWAP, YES);
    var s1 := SwapFirst(START);
    OneSwap(START.ledger, s1);
    ExecSends(SETUP + [SWAP, YES], 4);
    SendsSpend(s1, 4, 20_000_000);
    assert LimitsFor(SceneConfig(), PayOn(s1, 4).Tier(BEN)) == LIMIT;
  }

  /** The bound of twice the daily cap is reached: all of it at or under the soft cap, within one day,
      by one caller of the lowest tier under the caps the code ships with. */
  lemma TwiceTheCapIsReached()
    ensures SceneConfig().tiers == DEFAULT_TIERS && SceneConfig().Ordinary(BEN)
    ensures exists run: seq<Input>, t: seq<State> :: Run(SceneConfig(), run, t)
              && LimitsFor(SceneConfig(), t[|run|].Tier(BEN)) == LIMIT
              && SumSoft(t[|run|].ledger, BEN, 0, LIMIT.perTx) + SumOther(t[|run|].ledger, BEN, 0) == 2 * LIMIT.daily
  {
    hide Run, States, Exec, SumSoft, SumOther, SumSends;
    SpreeIsARun();
    SpreeEnds();
    var t := States(SceneConfig(), SPREE);
    assert t[|SPREE|] == Exec(SceneConfig(), SPREE);
    assert 2 * LIMIT.daily == 40_000_000;
  }
}
