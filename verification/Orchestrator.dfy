/** The whole program on one desk: every input of a run handled by the imperative handlers.  This is
    what carries the theorems about runs over to the code that updates the tables in place. */
module Orchestrator {
  import opened Text
  import opened Tables
  import opened Settings
  import opened Payees
  import opened Pipeline
  import opened Runs
  import Channels
  import Claims
  import Handlers
  import Names

  method HandleCallStart(desk: Desk, raw: string) returns (r: Reply)
    modifies desk
    ensures (desk.Now(), r) == JoinFx(old(desk.Now()), NormalizePhone(raw), None)
  {
    r := Handlers.JoinOrGreet(desk, NormalizePhone(raw), None);
  }

  method HandleMissedCall(desk: Desk, now: nat, raw: string)
    modifies desk
    ensures desk.Now() == FlashFx(old(desk.Now()), now, NormalizePhone(raw))
  {
    var p := NormalizePhone(raw);
    if p in desk.users && Onboarded(desk.users[p]) {
      desk.ReleaseMaturedLocks(p, now);
    }
  }

  method Receive(desk: Desk, to: Phone, amount: nat)
    modifies desk
    ensures desk.Now() == old(desk.Now()).Credit(WalletOf(to), amount)
  {
    var a := WalletOf(to);
    desk.balance := desk.balance[a := (if a in desk.balance then desk.balance[a] else 0) + amount];
  }

  method Perform(desk: Desk, c: Config, i: Input)
    requires |c.tiers| == 3
    modifies desk
    ensures desk.Now() == Step(c, old(desk.Now()), i)
  {
    hide HandleFx, JoinFx, MemoFx, NormalizePhone, Channels.Share, Names.Release;
    match i {
      case Said(at, raw, m) =>
        var r := Handlers.HandleMessage(desk, c, at, raw, m);
      case Called(at, raw) =>
        var r := HandleCallStart(desk, raw);
      case Flashed(at, raw) =>
        HandleMissedCall(desk, at, raw);
      case Memoed(at, raw, memo) =>
        var r := Handlers.AttachSendMemo(desk, NormalizePhone(raw), memo);
      case Deposited(at, to, amount) =>
        Receive(desk, to, amount);
      case ExpiryJob(at, outcomes) =>
        var n := Claims.ExpirePendingClaims(desk, c, at, outcomes);
      case Shared(_, chatId, contact) =>
        var ok := Channels.LinkTelegramToPhone(desk, chatId, contact);
      case NameDropped(_, raw) =>
        Names.ReleaseName(desk, NormalizePhone(raw));
    }
  }

  /** Working through a run leaves the desk in exactly the last state that the theorems speak of. */
  method WorkThrough(c: Config, run: seq<Input>) returns (desk: Desk)
    requires |c.tiers| == 3
    ensures fresh(desk) && desk.Now() == Exec(c, run)
    ensures forall t | Run(c, run, t) :: desk.Now() == t[|run|]
  {
    hide Step;
    desk := new Desk();
    for k := 0 to |run|
      invariant fresh(desk) && desk.Now() == Exec(c, run[..k])
    {
      assert run[..k + 1][..k] == run[..k];
      Perform(desk, c, run[k]);
    }
    assert run[..|run|] == run;
    forall t | Run(c, run, t) ensures desk.Now() == t[|run|] {
      StatesAreExecuted(c, run, t, |run|);
    }
  }
}
