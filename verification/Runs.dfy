/** Whole runs of the orchestrator: any number of callers, the expiry job, deposits from outside,
    shared contacts and dropped names, in any order, each message handled to its end. */
module Runs {
  import opened Text
  import opened Tables
  import opened Settings
  import opened Payees
  import opened Pipeline
  import Channels
  import Claims
  import Names

  /** One thing that happens, with the time on the clock. */
  datatype Input =
    | Said(at: nat, raw: string, m: Message)
    | Called(at: nat, raw: string)
    | Flashed(at: nat, raw: string)
    | Memoed(at: nat, raw: string, memo: string)
    | Deposited(at: nat, to: Phone, amount: nat)
    | ExpiryJob(at: nat, outcomes: seq<Outcome>)
    | Shared(at: nat, chatId: string, contact: string)
    | NameDropped(at: nat, raw: string)

  function Step(c: Config, s: State, i: Input): State
    requires |c.tiers| == 3
  {
    match i
    case Said(at, raw, m) => HandleFx(c, s, at, raw, m).0
    case Called(at, raw) => JoinFx(s, NormalizePhone(raw), None).0
    case Flashed(at, raw) => FlashFx(s, at, NormalizePhone(raw))
    case Memoed(at, raw, memo) => MemoFx(s, NormalizePhone(raw), memo).0
    case Deposited(at, to, amount) => s.Credit(WalletOf(to), amount)
    case ExpiryJob(at, outcomes) => Claims.Expire(c, s, at, outcomes).0
    case Shared(_, chatId, contact) => Channels.Share(s, chatId, contact).0
    case NameDropped(_, raw) => Names.Release(s, NormalizePhone(raw))
  }

  /** The state after a run that starts from empty tables. */
  function Exec(c: Config, run: seq<Input>): State
    requires |c.tiers| == 3
  {
    if run == [] then EMPTY else Step(c, Exec(c, run[..|run| - 1]), run[|run| - 1])
  }

  /** The house accounts never call. */
  ghost predicate FromPeople(c: Config, i: Input) {
    match i
    case Said(_, raw, _) => c.Ordinary(NormalizePhone(raw))
    case Called(_, raw) => c.Ordinary(NormalizePhone(raw))
    case Flashed(_, raw) => c.Ordinary(NormalizePhone(raw))
    case Memoed(_, raw, _) => c.Ordinary(NormalizePhone(raw))
    case Deposited(_, _, _) => true
    case ExpiryJob(_, _) => true
    case Shared(_, chatId, contact) => c.Ordinary(NormalizePhone(contact)) && c.Ordinary(Channels.ChatAccount(chatId))
    case NameDropped(_, raw) => c.Ordinary(NormalizePhone(raw))
  }

  /** Step k: a person acts, or the outside, and state k leads to state k + 1. */
  ghost predicate Leads(c: Config, run: seq<Input>, t: seq<State>, k: nat)
    requires |c.tiers| == 3 && k < |run| && |t| == |run| + 1
  {
    FromPeople(c, run[k]) && t[k + 1] == Step(c, t[k], run[k])
  }

  /** A run and its states: settings make sense, the clock never goes back, the tables start empty,
      and each input, from a person or from outside, leads from one state to the next. */
  ghost predicate Run(c: Config, run: seq<Input>, t: seq<State>) {
    && c.Valid()
    && (forall j, k | 0 <= j < k < |run| :: run[j].at <= run[k].at)
    && |t| == |run| + 1 && t[0] == EMPTY
    && forall k {:trigger Leads(c, run, t, k)} | 0 <= k < |run| :: Leads(c, run, t, k)
  }

  /** The time after the first k inputs. */
  function Clock(run: seq<Input>, k: nat): nat
    requires k <= |run|
  {
    if k == 0 then 0 else run[k - 1].at
  }

  /** The states of a run are those of executing it. */
  lemma {:induction false} StatesAreExecuted(c: Config, run: seq<Input>, t: seq<State>, k: nat)
    requires Run(c, run, t) && k <= |run|
    ensures t[k] == Exec(c, run[..k])
  {
    hide Step;
    if k > 0 {
      StatesAreExecuted(c, run, t, k - 1);
      assert Leads(c, run, t, k - 1);
      assert run[..k][..k - 1] == run[..k - 1];
    }
  }

  function States(c: Config, run: seq<Input>): seq<State>
    requires |c.tiers| == 3
  {
    seq(|run| + 1, k requires 0 <= k <= |run| => Exec(c, run[..k]))
  }

  /** Executing inputs of people in the order of their times is a run. */
  lemma ExecutionIsARun(c: Config, run: seq<Input>)
    requires c.Valid() && (forall k | 0 <= k < |run| :: FromPeople(c, run[k]))
    requires forall j, k | 0 <= j < k < |run| :: run[j].at <= run[k].at
    ensures Run(c, run, States(c, run)) && States(c, run)[|run|] == Exec(c, run)
  {
    hide Step, FromPeople;
    var t := States(c, run);
    forall k | 0 <= k < |run| ensures Leads(c, run, t, k) {
      assert run[..k + 1][..k] == run[..k];
    }
    assert run[..|run|] == run;
    assert run[..0] == [];
  }
}
