/** The limits of the PIN guard (orchestrator/src/lib/pipeline.ts).  A recovery code is tested without
    counting a failure or asking for the lock; confirming a standing order or a savings lock counts
    failures but does not ask for the lock.  Such tests are not bounded, not even for a caller whom the
    message limiter (orchestrator/src/lib/rateLimit.ts) never stops. */
module Unguarded {
  import opened Text
  import opened Tables
  import opened Settings
  import opened Payees
  import opened Pipeline
  import opened Runs
  import opened Effects
  import opened PinGuard
  import opened Scenes
  import RateLimit
  import PinTexts

  // ----- slow enough for the limiter -----

  const PER_MINUTE := 30
  const MINUTE := 60_000
  const PACE := 4_000

  /** The time of the k-th message after the start. */
  function Then(k: nat): nat {
    PACE * (k + 1)
  }

  function Times(run: seq<Input>): seq<nat> {
    seq(|run|, k requires 0 <= k < |run| => run[k].at)
  }

  /** If every input came through the limiter as a message of one caller, none would be refused. */
  ghost predicate Admitted(run: seq<Input>) {
    forall k | 0 <= k < |run| :: RateLimit.VerdictOn(Times(run), k, PER_MINUTE, MINUTE).ok
  }

  lemma PacedIsAdmitted(run: seq<Input>)
    requires forall k | 0 <= k < |run| :: run[k].at == if k < |SETUP| then 0 else Then(k - |SETUP|)
    ensures Admitted(run)
  {
    hide RateLimit.VerdictOn;
    var times := Times(run);
    assert RateLimit.Ordered(times);
    RateLimit.AllPassExactlyWhenSpaced(times, |times|, PER_MINUTE, MINUTE);
  }

  // ----- wrong recovery codes -----

  /** A code that the message tests against an open challenge of p, and that is wrong. */
  ghost predicate WrongCode(s: State, now: nat, p: Phone, intent: Intent) {
    && p in s.users && !(p in s.sessions && s.sessions[p].AwaitingName?) && intent.RecoverConfirm?
    && s.users[p].recovery.Some? && now <= s.users[p].recovery.value.expires && s.users[p].recovery.value.code != intent.code
  }

  /** A wrong code leaves no trace in the tables, whoever sends it, locked or not. */
  lemma WrongCodesLeaveNoTrace(c: Config, s: State, i: Input)
    requires |c.tiers| == 3 && i.Said? && WrongCode(s, i.at, NormalizePhone(i.raw), i.m.intent)
    ensures Step(c, s, i) == s
  {
    hide NormalizePhone, IsTelegram;
    var p := NormalizePhone(i.raw);
    assert s.WithUser(p) == s;
    assert RecoverConfirmFx(c, s, i.at, p, i.m.intent.code, i.m.intent.newPin).0 == s;
  }

  const CODE := "123456"
  const GUESS := RecoverConfirm("000000", "1111")

  /** Ask for a code, try one, ask for the next code, try, and so on. */
  function AskOrTry(k: nat): Input {
    if k % 2 == 0 then SayAt(Then(k), RecoverPin, PLAIN.(code := CODE)) else SayAt(Then(k), GUESS, PLAIN)
  }

  function Asking(n: nat): seq<Input> {
    seq(n, k requires 0 <= k < n => AskOrTry(k))
  }

  /** After n of these messages only the open challenge differs from the start. */
  function Challenged(n: nat): State {
    if n == 0 then START
    else START.(users := map[BEN := BEN_ROW.(recovery := Some(Recovery(CODE, Then(n - 1 - (n - 1) % 2) + 900_000)))])
  }

  lemma Challenging(s: State, n: nat)
    requires n % 2 == 0 && s == Challenged(n)
    ensures RecoverFx(SceneConfig(), s, Then(n), BEN, CODE).0 == Challenged(n + 1)
  {
    assert s.WithUser(BEN) == s;
  }

  lemma AskedAgain(n: nat)
    requires n % 2 == 0
    ensures Step(SceneConfig(), Challenged(n), AskOrTry(n)) == Challenged(n + 1)
  {
    hide Step, ConfirmFx, GateFx, NameAnswerFx, JoinFx, SetPinFx, FinishNamingFx, RecoverConfirmFx;
    var s := Challenged(n);
    SpokenAt(s, Then(n), RecoverPin, PLAIN.(code := CODE));
    Challenging(s, n);
    assert BEN !in s.sessions;
  }

  lemma GuessIsWrong(s: State, n: nat)
    requires s == Challenged(n) && n % 2 == 1
    ensures By(s, AskOrTry(n), BEN) && WrongCode(s, Then(n), BEN, GUESS)
  {
    BenIsBen();
  }

  lemma OneMoreMessage(n: nat)
    ensures Step(SceneConfig(), Challenged(n), AskOrTry(n)) == Challenged(n + 1)
  {
    hide Step;
    if n % 2 == 0 {
      AskedAgain(n);
    } else {
      GuessIsWrong(Challenged(n), n);
      WrongCodesLeaveNoTrace(SceneConfig(), Challenged(n), AskOrTry(n));
      assert n - (n % 2) == n - 1 - (n - 1) % 2;
    }
  }

  lemma {:induction false} AskingChallenges(n: nat)
    ensures Play(START, Asking(n)) == Challenged(n)
  {
    hide Step;
    if n > 0 {
      AskingChallenges(n - 1);
      OneMoreMessage(n - 1);
      assert Asking(n)[..n - 1] == Asking(n - 1);
    }
  }

  /** Input i tests a wrong code of Ben, and is what the grammar reads in some text. */
  ghost predicate TestsCode(s: State, i: Input) {
    && By(s, i, BEN) && WrongCode(s, i.at, BEN, i.m.intent)
    && PinTexts.ReadCode(PinTexts.CodeText(i.m.intent.code, i.m.intent.newPin)) == Some((i.m.intent.code, i.m.intent.newPin))
  }

  /** Every other one of 2n messages from a on tests a wrong code, each message passes the limiter, and at
      the end nothing is counted. */
  ghost predicate CodesTried(run: seq<Input>, t: seq<State>, a: nat, n: nat) {
    && Run(SceneConfig(), run, t) && Admitted(run) && a + 2 * n <= |run|
    && (forall k | a <= k < a + 2 * n && (k - a) % 2 == 1 :: TestsCode(t[k], run[k]))
    && View(t[a + 2 * n], BEN) == PinView(0, None)
  }

  lemma GuessTestsCode(s: State, n: nat)
    requires s == Challenged(n) && n % 2 == 1
    ensures TestsCode(s, AskOrTry(n))
  {
    hide PinTexts.ReadCode, PinTexts.CodeText;
    GuessIsWrong(s, n);
    PinTexts.CodeTextsReadBack(GUESS.code, GUESS.newPin);
  }

  lemma AskingIsOrderly(n: nat)
    ensures forall k | 0 <= k < n :: FromPeople(SceneConfig(), AskOrTry(k)) && AskOrTry(k).at == Then(k)
  {
    BenIsAPerson(RecoverPin, PLAIN.(code := CODE));
    BenIsAPerson(GUESS, PLAIN);
  }

  lemma AskingStates(n: nat)
    ensures var run, t := SETUP + Asking(n), States(SceneConfig(), SETUP + Asking(n));
            && Run(SceneConfig(), run, t) && |t| == |SETUP| + n + 1
            && forall k | |SETUP| <= k <= |SETUP| + n :: t[k] == Challenged(k - |SETUP|)
  {
    hide Run, Step, States, Play, Challenged, AskOrTry;
    var rest, t := Asking(n), States(SceneConfig(), SETUP + Asking(n));
    AskingIsOrderly(n);
    SceneIsARun(rest);
    forall k | |SETUP| <= k <= |SETUP| + n ensures t[k] == Challenged(k - |SETUP|) {
      AskingChallenges(k - |SETUP|);
      assert rest[..k - |SETUP|] == Asking(k - |SETUP|);
      assert t[|SETUP| + (k - |SETUP|)] == Play(START, rest[..k - |SETUP|]);
    }
  }

  lemma NothingCounted(n: nat)
    ensures View(Challenged(n), BEN) == PinView(0, None)
  {
  }

  /** However large n is, a run tests n wrong recovery codes at a pace that the limiter admits, and nothing
      has been counted. */
  lemma CodeTestsAreUnbounded(n: nat)
    ensures exists run: seq<Input>, t: seq<State>, a: nat :: CodesTried(run, t, a, n)
  {
    hide Run, Step, States, TestsCode, Admitted, Challenged, AskOrTry;
    var a, run := |SETUP|, SETUP + Asking(2 * n);
    var t := States(SceneConfig(), run);
    AskingIsOrderly(2 * n);
    AskingStates(2 * n);
    PacedIsAdmitted(run);
    NothingCounted(2 * n);
    forall k | a <= k < a + 2 * n && (k - a) % 2 == 1 ensures TestsCode(t[k], run[k]) {
      GuessTestsCode(t[k], k - a);
      assert run[k] == AskOrTry(k - a);
    }
    assert CodesTried(run, t, a, n);
  }

  // ----- standing orders and savings locks -----

  /** What Ben asks for, a savings lock or a standing order. */
  function Wish(saving: bool): Intent {
    if saving then LockSavings(1_000_000, Some(86_400_000)) else Standing(1_000_000, SHOP, Monthly)
  }

  function Slot(saving: bool): Pending {
    if saving then PLock(1_000_000, 86_400_000) else PStanding(1_000_000, SHOP, None, Some(SHOP), Monthly)
  }

  const WRONG := ConfirmWith(Some("0000"))

  function WishOrTry(saving: bool, k: nat): Input {
    if k == 0 then SayAt(Then(0), Wish(saving), PLAIN) else SayAt(Then(k), WRONG, PLAIN)
  }

  function Wishing(saving: bool, n: nat): seq<Input> {
    seq(n, k requires 0 <= k < n => WishOrTry(saving, k))
  }

  /** The wish is pending and n wrong PINs were counted. */
  function Waiting(saving: bool, n: nat): State {
    START.(sessions := map[BEN := Slot(saving)],
           users := map[BEN := BEN_ROW.(fails := n, lockedUntil := if n >= 3 then Some(Then(n) + 900_000) else None)])
  }

  lemma WishIsPending(saving: bool)
    ensures Step(SceneConfig(), START, WishOrTry(saving, 0)) == Waiting(saving, 0)
  {
    hide Step, Resolve;
    SetUp();
    var c, now := SceneConfig(), Then(0);
    SpokenAt(START, now, Wish(saving), PLAIN);
    assert START.WithUser(BEN) == START;
    ShopsResolve(START, SHOP);
    assert START.ReleaseMatured(BEN, now) == START;
    assert ServeFx(c, START, now, BEN, Wish(saving), PLAIN).0 == Waiting(saving, 0);
  }

  lemma WrongFails(saving: bool, n: nat)
    ensures var c, s, now := SceneConfig(), Waiting(saving, n), Then(n + 1);
            && BEN in s.users && BEN in s.sessions
            && (saving ==> ConfirmLockFx(c, s, now, BEN, s.sessions[BEN], Some("0000")).0 == Waiting(saving, n + 1))
            && (!saving ==> ConfirmOrderFx(c, s, now, BEN, s.sessions[BEN], Some("0000")).0 == Waiting(saving, n + 1))
  {
    assert Waiting(saving, n).FailPin(BEN, Then(n + 1), 3, 900_000) == Waiting(saving, n + 1);
  }

  lemma WrongIsCounted(saving: bool, n: nat)
    ensures Step(SceneConfig(), Waiting(saving, n), WishOrTry(saving, n + 1)) == Waiting(saving, n + 1)
  {
    hide Step, AccountFx, GateFx, NameAnswerFx, ConfirmRulesFx, ConfirmPaymentFx, ConfirmOrderFx, ConfirmLockFx;
    var s, now := Waiting(saving, n), Then(n + 1);
    SpokenAt(s, now, WRONG, PLAIN);
    assert s.WithUser(BEN) == s;
    WrongFails(saving, n);
  }

  lemma {:induction false} WrongsAreCounted(saving: bool, n: nat)
    ensures Play(START, Wishing(saving, n + 1)) == Waiting(saving, n)
  {
    hide Step;
    if n == 0 {
      WishIsPending(saving);
      assert Wishing(saving, 1)[..0] == [];
    } else {
      WrongsAreCounted(saving, n - 1);
      WrongIsCounted(saving, n - 1);
      assert Wishing(saving, n + 1)[..n] == Wishing(saving, n);
    }
  }

  /** Input i tests a wrong PIN for Ben's standing order or savings lock, and is what the grammar reads in
      some text, although the account is locked if `locked` says so. */
  ghost predicate TestsPin(s: State, i: Input, saving: bool, locked: bool) {
    && By(s, i, BEN) && OpenGuess(s, BEN, i.m.intent) && s.sessions[BEN] == Slot(saving)
    && PinTexts.ReadPin(PinTexts.ConfirmText(i.m.intent.pin.value)) == i.m.intent.pin
    && (locked ==> BEN in s.users && PinLocked(s.users[BEN], i.at))
  }

  /** n steps from a on test a wrong PIN; after the third the account is locked, and the tests go on. */
  ghost predicate GuessedLocked(run: seq<Input>, t: seq<State>, a: nat, n: nat, saving: bool) {
    && Run(SceneConfig(), run, t) && Admitted(run) && a + n <= |run|
    && forall k | a <= k < a + n :: TestsPin(t[k], run[k], saving, k >= a + 3)
  }

  lemma WrongTests(s: State, saving: bool, n: nat)
    requires s == Waiting(saving, n)
    ensures TestsPin(s, WishOrTry(saving, n + 1), saving, n >= 3)
  {
    hide PinTexts.ReadPin, PinTexts.ConfirmText;
    BenIsBen();
    PinTexts.ConfirmTextsReadBack("0000");
  }

  lemma WishingIsOrderly(saving: bool)
    ensures forall k :: FromPeople(SceneConfig(), WishOrTry(saving, k)) && WishOrTry(saving, k).at == Then(k)
  {
    BenIsAPerson(Wish(saving), PLAIN);
    BenIsAPerson(WRONG, PLAIN);
  }

  /** However large n is, a run tests n wrong PINs at a pace that the limiter admits, all but three of them
      while the account is locked. */
  lemma LockedTestsAreUnbounded(saving: bool, n: nat)
    ensures exists run: seq<Input>, t: seq<State>, a: nat :: GuessedLocked(run, t, a, n, saving)
  {
    hide Run, Step, States, Play, TestsPin, Admitted, Waiting, WishOrTry;
    var a, rest := |SETUP| + 1, Wishing(saving, n + 1);
    var run, t := SETUP + rest, States(SceneConfig(), SETUP + rest);
    WishingIsOrderly(saving);
    SceneIsARun(rest);
    PacedIsAdmitted(run);
    forall k | a <= k < a + n ensures TestsPin(t[k], run[k], saving, k >= a + 3) {
      WrongsAreCounted(saving, k - a);
      assert rest[..k - |SETUP|] == Wishing(saving, k - a + 1);
      assert t[|SETUP| + (k - |SETUP|)] == Play(START, rest[..k - |SETUP|]);
      assert run[k] == WishOrTry(saving, k - a + 1);
      WrongTests(t[k], saving, k - a);
    }
    assert GuessedLocked(run, t, a, n, saving);
  }
}
