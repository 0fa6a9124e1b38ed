/** Ben, who sets himself up and deposits forty dollars: the common start of the concrete runs, and what
    his messages do. */
module Scenes {
  import opened Text
  import opened Tables
  import opened Settings
  import opened Policy
  import opened Payees
  import opened Pipeline
  import opened Runs
  import opened Effects
  import Claims

  const BEN: Phone := "+1"
  const SHOP := "0xcd"
  const OLD_SHOP := "0xab"
  const LIMIT := DEFAULT_TIERS[0]
  const PLAIN := Env(Landed(0), Landed(0), true, 0, [], "")

  function SceneConfig(): Config {
    Config(DEFAULT_TIERS, 1_000_000, None, 3, 900_000, 86_400_000, 1_200_000, 900_000, 5, 604_800_000, "escrow", "sink", 0, 1_000_000, 0,
           a => a == SHOP || a == OLD_SHOP)
  }

  function SayAt(at: nat, intent: Intent, env: Env): Input {
    Said(at, BEN, Message(intent, None, env))
  }

  function SayWith(intent: Intent, env: Env): Input {
    SayAt(0, intent, env)
  }

  function Say(intent: Intent): Input {
    SayWith(intent, PLAIN)
  }

  const ANSWER := ConfirmWith(Some("1234"))
  const YES := Say(ANSWER)

  lemma BenIsBen()
    ensures NormalizePhone(BEN) == BEN && !IsTelegram(BEN)
    ensures WalletOf(BEN) != POOL && WalletOf(BEN) != SHOP && WalletOf(BEN) != OLD_SHOP
    ensures forall s, i: Intent :: !i.Digits? ==> ExpandDigits(s, BEN, i) == i
  {
    assert Trim(BEN) == BEN;
    assert Lower(BEN) == BEN;
    assert DigitsAndPlus(BEN) == BEN;
    assert WalletOf(BEN)[0] == 'w';
    assert |WalletOf(BEN)| == 9;
  }

  const BEN_ROW := NEW_USER.(name := Some("Ben"), pin := Some("1234"))

  /** Ben is set up, nothing is pending, and the next key is fresh. */
  predicate Ready(s: State) {
    && BEN in s.users && s.users[BEN] == BEN_ROW && BEN !in s.sessions
    && s.nextKey !in s.idem && forall k | k in s.idem :: k < s.nextKey
  }

  /** Nothing is frozen or locked either. */
  predicate Free(s: State) {
    Ready(s) && s.rules == [] && s.locks == []
  }

  /** Pending m at the next key, with Ben otherwise as in s. */
  function Ordered(s: State, m: Pending): State {
    s.(nextKey := s.nextKey + 1).PutPending(BEN, Some(m))
  }

  lemma Unlocked(s: State)
    requires s.locks == []
    ensures s.ReleaseMatured(BEN, 0) == s && s.Locked(BEN, 0) == 0
  {
  }

  lemma SpokenAt(s: State, at: nat, intent: Intent, env: Env)
    requires !intent.Digits?
    ensures Step(SceneConfig(), s, SayAt(at, intent, env)) == DispatchFx(SceneConfig(), s, at, BEN, Message(intent, None, env)).0
  {
    hide NormalizePhone, IsTelegram;
    BenIsBen();
    var m := Message(intent, None, env);
    assert m.(intent := ExpandDigits(s, BEN, intent)) == m;
  }

  lemma Spoken(s: State, intent: Intent, env: Env)
    requires !intent.Digits?
    ensures Step(SceneConfig(), s, SayWith(intent, env)) == DispatchFx(SceneConfig(), s, 0, BEN, Message(intent, None, env)).0
  {
    hide Step, DispatchFx;
    SpokenAt(s, 0, intent, env);
  }

  /** What an onboarded Ben asks is served. */
  lemma Served(s: State, intent: Intent, env: Env)
    requires Ready(s) && !intent.Digits? && !IsAccountIntent(intent)
    requires !intent.Rate? && !intent.Cancel? && !intent.ConfirmWith? && !intent.ConfirmPolicy?
    ensures Step(SceneConfig(), s, SayWith(intent, env)) == ServeFx(SceneConfig(), s, 0, BEN, intent, env).0
  {
    hide ServeFx;
    Spoken(s, intent, env);
    assert s.WithUser(BEN) == s;
    assert GateFx(SceneConfig(), s, 0, BEN, intent, env) == ServeFx(SceneConfig(), s, 0, BEN, intent, env);
  }

  lemma Asked(s: State, intent: Intent)
    requires Ready(s) && AsksForMoney(intent)
    ensures Step(SceneConfig(), s, Say(intent)) == ServeMoneyFx(SceneConfig(), s, 0, BEN, intent).0
  {
    hide ServeMoneyFx;
    Served(s, intent, PLAIN);
  }

  /** The PIN lets the order through. */
  lemma YesPays(s: State, m: Pending, env: Env)
    requires Ready(s) && Money(m)
    ensures Step(SceneConfig(), Ordered(s, m), SayWith(ANSWER, env)) == PayFx(SceneConfig(), Ordered(s, m), 0, BEN, m, env).0
  {
    hide PayFx, Step;
    var c, t := SceneConfig(), Ordered(s, m);
    Spoken(t, ANSWER, env);
    assert t.WithUser(BEN) == t && t.sessions[BEN] == m;
    assert t.ClearFails(BEN) == t;
    assert PinStep(c, t, 0, BEN, Some("1234")) == (t, None);
    assert ConfirmPaymentFx(c, t, 0, BEN, m, Some("1234"), env) == PayFx(c, t, 0, BEN, m, env);
    assert ConfirmFx(c, t, 0, BEN, Some("1234"), false, env) == PayFx(c, t, 0, BEN, m, env);
  }

  // ----- paying an address -----

  function AddressOrder(amount: nat, title: string, a: string, key: Key): Pending {
    PSend(amount, title, Some(a), None, false, key, "")
  }

  lemma ShopsResolve(s: State, a: string)
    requires a == SHOP || a == OLD_SHOP
    ensures Resolve(SceneConfig(), s, BEN, a) == Some(Payee(a, Some(a), None, false))
  {
    assert Trim(SHOP) == SHOP;
    assert Trim(OLD_SHOP) == OLD_SHOP;
  }

  lemma SmallSendPasses(s: State, amount: nat, a: string)
    requires Free(s) && 0 < amount <= 5_000_000 && SentToday(s, BEN, 0) + amount <= 20_000_000
    ensures SendGate(SceneConfig(), s, 0, BEN, amount, a, None) == (Confirm, s)
  {
    hide SumKind, SumTo;
    Unlocked(s);
    assert s.Rules(BEN) == [];
    assert LimitsFor(SceneConfig(), s.Tier(BEN)) == LIMIT;
  }

  lemma AddressIsOrdered(s: State, amount: nat, a: string)
    requires Free(s) && 0 < amount <= 5_000_000 && SentToday(s, BEN, 0) + amount <= 20_000_000 && (a == SHOP || a == OLD_SHOP)
    ensures Step(SceneConfig(), s, Say(SendTo(amount, a, ""))) == Ordered(s, AddressOrder(amount, a, a, s.nextKey))
  {
    hide Step, Resolve, SendGate, SumKind;
    Asked(s, SendTo(amount, a, ""));
    ShopsResolve(s, a);
    SmallSendPasses(s, amount, a);
  }

  /** The tables after Ben has paid an address. */
  predicate PaidAddress(s: State, t: State, amount: nat, a: string, fee: nat) {
    && Ready(t) && t.Bal(BEN) + amount + fee == s.Bal(BEN)
    && t.ledger == s.ledger + [LedgerRow(BEN, Send, amount, Some(a), 0)]
    && t == s.(balance := t.balance, idem := t.idem, nextKey := t.nextKey, ledger := t.ledger, sessions := t.sessions)
  }

  lemma AddressIsPaid(s: State, m: Pending, fee: nat) returns (t: State)
    requires Ready(s) && m.PSend? && m == AddressOrder(m.amount, m.toLabel, m.toAddress.Or(""), s.nextKey)
    requires WalletOf(BEN) != m.toAddress.value && s.Bal(BEN) >= m.amount + fee
    ensures t == SendFx(SceneConfig(), Ordered(s, m), 0, BEN, m, Landed(fee)).0
    ensures PaidAddress(s, t, m.amount, m.toAddress.value, fee)
  {
    var a := m.toAddress.value;
    var o := Ordered(s, m);
    var s1 := o.(idem := o.idem[m.key := InFlight]);
    var s2 := s1.Credit(WalletOf(BEN), -(m.amount + fee)).Credit(a, m.amount);
    assert s1.Transfer(BEN, a, m.amount, Landed(fee)) == (s2, true);
    var row := LedgerRow(BEN, Send, m.amount, Some(a), 0);
    t := FinishFx(s2.AddRow(row), BEN, m.key, Sent(m.amount, m.toLabel)).0;
    assert t.Bal(BEN) == s2.Bal(BEN);
    assert t.sessions == s.sessions;
  }

  /** An order for an address, confirmed with a fee. */
  lemma AddressRound(s: State, m: Pending, fee: nat) returns (t: State)
    requires Ready(s) && m.PSend? && m == AddressOrder(m.amount, m.toLabel, m.toAddress.Or(""), s.nextKey)
    requires WalletOf(BEN) != m.toAddress.value && s.Bal(BEN) >= m.amount + fee
    ensures t == Step(SceneConfig(), Ordered(s, m), SayWith(ANSWER, PLAIN.(outcome := Landed(fee))))
    ensures PaidAddress(s, t, m.amount, m.toAddress.value, fee)
  {
    hide Step, SendFx;
    YesPays(s, m, PLAIN.(outcome := Landed(fee)));
    t := AddressIsPaid(s, m, fee);
  }

  // ----- the start -----

  const SETUP := [Say(SetName("Ben")), Say(SetPinTo("1234")), Deposited(0, BEN, 40_000_000)]

  lemma Named() returns (t: State)
    ensures t == Step(SceneConfig(), EMPTY, SETUP[0])
    ensures t == EMPTY.(users := map[BEN := NEW_USER.(name := Some("Ben"))])
  {
    Spoken(EMPTY, SETUP[0].m.intent, PLAIN);
    t := EMPTY.(users := map[BEN := NEW_USER.(name := Some("Ben"))]);
    assert FinishNamingFx(EMPTY, BEN, "Ben").0 == t;
  }

  lemma PinSet(s: State) returns (t: State)
    requires s == EMPTY.(users := map[BEN := NEW_USER.(name := Some("Ben"))])
    ensures t == Step(SceneConfig(), s, SETUP[1])
    ensures t == EMPTY.(users := map[BEN := BEN_ROW])
  {
    Spoken(s, SETUP[1].m.intent, PLAIN);
    t := EMPTY.(users := map[BEN := BEN_ROW]);
    assert s.WithUser(BEN).PutPin(BEN, "1234").PutPending(BEN, None) == t;
    assert Claims.HeldClaimsOf([], BEN) == [];
    assert Claims.Fulfil(SceneConfig(), t, 0, BEN, []) == (t, 0);
    assert SetPinFx(SceneConfig(), s, 0, BEN, "1234", []).0 == t;
  }

  lemma OneMore(run: seq<Input>, i: Input)
    ensures Exec(SceneConfig(), run + [i]) == Step(SceneConfig(), Exec(SceneConfig(), run), i)
  {
    assert (run + [i])[..|run + [i]| - 1] == run;
  }

  lemma TwoMore(run: seq<Input>, i: Input, j: Input)
    ensures Exec(SceneConfig(), run + [i, j]) == Step(SceneConfig(), Step(SceneConfig(), Exec(SceneConfig(), run), i), j)
  {
    OneMore(run, i);
    OneMore(run + [i], j);
    assert run + [i, j] == run + [i] + [j];
  }

  const START := EMPTY.(users := map[BEN := BEN_ROW], balance := map[WalletOf(BEN) := 40_000_000])

  lemma SetUp()
    ensures Exec(SceneConfig(), SETUP) == START && Free(START) && START.Bal(BEN) == 40_000_000
  {
    var s1 := Named();
    var s2 := PinSet(s1);
    TwoMore([], SETUP[0], SETUP[1]);
    OneMore([] + [SETUP[0], SETUP[1]], SETUP[2]);
    assert SETUP == [] + [SETUP[0], SETUP[1]] + [SETUP[2]];
    assert s2.Credit(WalletOf(BEN), 40_000_000) == START;
  }

  /** Everything happens at time 0, and no house account acts. */
  ghost predicate AllAtOnce(run: seq<Input>) {
    forall k | 0 <= k < |run| :: run[k].at == 0 && FromPeople(SceneConfig(), run[k])
  }

  lemma BenIsAPerson(intent: Intent, env: Env)
    ensures FromPeople(SceneConfig(), SayWith(intent, env)) && forall at :: FromPeople(SceneConfig(), SayAt(at, intent, env))
  {
    BenIsBen();
  }

  lemma StartIsAtOnce()
    ensures AllAtOnce(SETUP)
  {
    BenIsAPerson(SETUP[0].m.intent, PLAIN);
    BenIsAPerson(SETUP[1].m.intent, PLAIN);
  }

  /** The states after each of the inputs that follow. */
  function Play(s: State, rest: seq<Input>): State {
    if rest == [] then s else Step(SceneConfig(), Play(s, rest[..|rest| - 1]), rest[|rest| - 1])
  }

  lemma {:induction false} PlayedOn(rest: seq<Input>)
    ensures Exec(SceneConfig(), SETUP + rest) == Play(START, rest)
  {
    hide Step;
    if rest == [] {
      SetUp();
      assert SETUP + rest == SETUP;
    } else {
      PlayedOn(rest[..|rest| - 1]);
      OneMore(SETUP + rest[..|rest| - 1], rest[|rest| - 1]);
      assert SETUP + rest == SETUP + rest[..|rest| - 1] + [rest[|rest| - 1]];
    }
  }

  /** The start and whatever follows it in the order of times is a run, and these are its states. */
  lemma SceneIsARun(rest: seq<Input>)
    requires forall k | 0 <= k < |rest| :: FromPeople(SceneConfig(), rest[k])
    requires forall j, k | 0 <= j < k < |rest| :: rest[j].at <= rest[k].at
    ensures Run(SceneConfig(), SETUP + rest, States(SceneConfig(), SETUP + rest))
    ensures |States(SceneConfig(), SETUP + rest)| == |SETUP + rest| + 1
    ensures forall k {:trigger Play(START, rest[..k])} | 0 <= k <= |rest| ::
              States(SceneConfig(), SETUP + rest)[|SETUP| + k] == Play(START, rest[..k])
  {
    hide Step, Play, FromPeople;
    StartIsAtOnce();
    ExecutionIsARun(SceneConfig(), SETUP + rest);
    forall k | 0 <= k <= |rest|
      ensures States(SceneConfig(), SETUP + rest)[|SETUP| + k] == Play(START, rest[..k])
    {
      PlayedOn(rest[..k]);
      assert (SETUP + rest)[..|SETUP| + k] == SETUP + rest[..k];
    }
  }
}
