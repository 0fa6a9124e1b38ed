/** Pending claims over whole runs of the orchestrator: each is settled at most once, no sender opens
    more than the daily number, and the escrow stays able to pay. */
module ClaimRuns {
  import opened Text
  import opened Tables
  import opened Settings
  import opened Payees
  import opened Pipeline
  import opened Runs
  import opened Effects
  import opened Steps
  import opened Safety
  import opened Claims
  import opened Escrow
  import Channels
  import Payments

  /** Later tables hold every earlier claim, unchanged or settled since, and none was written off. */
  ghost predicate Aged(s: State, t: State) {
    |s.claims| <= |t.claims| && forall k | 0 <= k < |s.claims| :: SameOrSettled(s.claims[k], t.claims[k])
  }

  lemma AgedChain(s: State, t: State, u: State)
    requires Aged(s, t) && Aged(t, u)
    ensures Aged(s, u)
  {
    forall k | 0 <= k < |s.claims|
      ensures SameOrSettled(s.claims[k], u.claims[k])
    {
      assert SameOrSettled(s.claims[k], t.claims[k]) && SameOrSettled(t.claims[k], u.claims[k]);
    }
  }

  /** Every phone keeps its account; only a chat can lose one. */
  ghost predicate PhonesStay(s: State, t: State) {
    forall p | p in s.users && !IsTelegram(p) :: p in t.users
  }

  ghost predicate UnderCap(c: Config, claims: seq<Claim>) {
    forall p, day :: ClaimsOpened(claims, p, day) <= c.claimCap
  }

  ghost predicate ClaimsOk(c: Config, s: State) {
    && Grounded(c, s) && UnderCap(c, s.claims)
    && forall k | 0 <= k < |s.claims| ::
         s.claims[k].amount > 0 && s.claims[k].status != Expired && !IsTelegram(s.claims[k].from)
  }

  lemma {:induction false} SettlingOpensNothing(a: seq<Claim>, b: seq<Claim>, p: Phone, day: nat)
    requires |a| == |b| && forall k | 0 <= k < |a| :: SameOrSettled(a[k], b[k])
    ensures ClaimsOpened(a, p, day) == ClaimsOpened(b, p, day)
  {
    if |a| > 0 {
      var n := |a| - 1;
      SettlingOpensNothing(a[..n], b[..n], p, day);
      assert SameOrSettled(a[n], b[n]);
    }
  }

  /** Settling some claims keeps all that is known about claims. */
  lemma SettledStaysOk(c: Config, s: State, t: State)
    requires ClaimsOk(c, s) && |t.claims| == |s.claims| && Aged(s, t) && PhonesStay(s, t)
    ensures ClaimsOk(c, t)
  {
    forall p, day
      ensures ClaimsOpened(t.claims, p, day) <= c.claimCap
    {
      SettlingOpensNothing(s.claims, t.claims, p, day);
    }
    forall k | 0 <= k < |t.claims|
      ensures t.claims[k].from in t.users && t.claims[k].from != c.escrow && t.claims[k].amount > 0 && t.claims[k].status != Expired
      ensures !IsTelegram(t.claims[k].from)
    {
      assert SameOrSettled(s.claims[k], t.claims[k]);
    }
  }

  lemma SameClaimsStayOk(c: Config, s: State, t: State)
    requires ClaimsOk(c, s) && t.claims == s.claims && PhonesStay(s, t)
    ensures ClaimsOk(c, t) && Aged(s, t)
  {
    SettledStaysOk(c, s, t);
  }

  // ----- payments -----

  /** A hold within the daily cap. */
  lemma HoldStaysOk(c: Config, s: State, now: nat, from: Phone, to: Phone, amount: nat, o: Outcome)
    requires ClaimsOk(c, s) && from != c.escrow && !IsTelegram(from) && amount > 0
    ensures var t := Hold(c, s, now, from, to, amount, o).0;
            ClaimsOk(c, t) && Aged(s, t) && s.claims <= t.claims && Slack(c, t) >= Slack(c, s)
  {
    hide Hold, Slack, HeldSum;
    var op := Open(now, from, to, amount, o);
    HoldAddsOneClaim(c, s, now, from, to, amount, o);
    HoldKeepsSlack(c, s, op);
    OpeningIsAHold(c, s, op);
    var t := Hold(c, s, now, from, to, amount, o).0;
    if t.claims == s.claims {
      SameClaimsStayOk(c, s, t);
    } else {
      forall p, day
        ensures ClaimsOpened(t.claims, p, day) <= c.claimCap
      {
        assert t.claims[..|s.claims|] == s.claims;
        assert ClaimsOpened(s.claims, p, day) <= c.claimCap;
      }
    }
  }

  /** Any payment that is no hold leaves the claims and does not take from the escrow. */
  ghost predicate EscrowKept(c: Config, s: State, t: State) {
    t.claims == s.claims && s.users.Keys <= t.users.Keys && t.Bal(c.escrow) >= s.Bal(c.escrow)
  }

  lemma RefusedSend(c: Config, s: State, now: nat, q: Phone, m: Pending, o: Outcome)
    requires m.PSend? && !(m.pendingClaim && m.toPhone.Some?) && (m.key in s.idem || m.toAddress.None?)
    ensures var t := SendFx(c, s, now, q, m, o).0; t == s.(idem := t.idem) && EscrowKept(c, s, t)
  {
  }

  lemma SameEscrow(c: Config, s: State, s1: State, s2: State, t: State)
    requires s1 == s.(idem := s1.idem) && s2 == s1.(balance := s2.balance) && s2.Bal(c.escrow) >= s1.Bal(c.escrow)
    requires t == s2.(ledger := t.ledger, idem := t.idem, sessions := t.sessions)
    ensures EscrowKept(c, s, t)
  {
  }

  lemma PlainSendKeepsEscrow(c: Config, s: State, now: nat, q: Phone, m: Pending, o: Outcome)
    requires q != c.escrow && m.PSend? && !(m.pendingClaim && m.toPhone.Some?)
    ensures EscrowKept(c, s, SendFx(c, s, now, q, m, o).0)
  {
    hide State.Transfer, SendFx, State.Bal;
    if m.key in s.idem || m.toAddress.None? {
      RefusedSend(c, s, now, q, m, o);
    } else {
      var s1 := s.(idem := s.idem[m.key := InFlight]);
      TransferKeepsOthers(s1, q, m.toAddress.value, m.amount, o, c.escrow);
      Payments.PlainSendShape(c, s, s1, now, q, m, o);
      SameEscrow(c, s, s1, s1.Transfer(q, m.toAddress.value, m.amount, o).0, SendFx(c, s, now, q, m, o).0);
    }
  }

  lemma SwapMoveKeepsEscrow(c: Config, s: State, q: Phone, m: Pending, o: Outcome, got: nat)
    requires q != c.escrow && m.PSwap?
    ensures EscrowKept(c, s, SwapMove(s, q, m, o, got).0)
  {
    hide State.Transfer;
    TransferKeepsOthers(s, q, POOL, m.amount, o, c.escrow);
    WalletsDiffer(q, c.escrow);
  }

  lemma SwapKeepsEscrow(c: Config, s: State, now: nat, q: Phone, m: Pending, o: Outcome, got: nat)
    requires q != c.escrow && m.PSwap?
    ensures EscrowKept(c, s, SwapFx(s, now, q, m, o, got).0)
  {
    hide State.Transfer, SwapMove;
    if m.key !in s.idem {
      var s1 := s.(idem := s.idem[m.key := InFlight]);
      SwapMoveKeepsEscrow(c, s1, q, m, o, got);
      var s2, t := SwapMove(s1, q, m, o, got).0, SwapFx(s, now, q, m, o, got).0;
      assert t.balance == s2.balance && t.claims == s2.claims && t.users == s2.users;
      assert t.Bal(c.escrow) == s2.Bal(c.escrow);
    }
  }

  lemma TopupKeepsEscrow(c: Config, s: State, now: nat, q: Phone, m: Pending, env: Env)
    requires c.Valid() && q != c.escrow && m.PTopup?
    ensures EscrowKept(c, s, TopupFx(c, s, now, q, m, env).0)
  {
    if m.key !in s.idem {
      var s1 := s.(idem := s.idem[m.key := InFlight]);
      AirtimeKeepsEscrow(c, s1, q, m.charge, env);
      var (s2, ok) := AirtimeMove(c, s1, q, m.charge, env);
      if ok {
        var t := TopupFx(c, s, now, q, m, env).0;
        assert t.balance == s2.balance && t.claims == s2.claims && t.users == s2.users;
      }
    }
  }

  lemma SinkIsRegistered(c: Config, s: State)
    ensures var e := s.WithUser(c.sink);
            e == s.(users := e.users) && s.users.Keys <= e.users.Keys && e.Bal(c.escrow) == s.Bal(c.escrow)
  {
  }

  lemma AirtimeKeepsEscrow(c: Config, s: State, q: Phone, charge: nat, env: Env)
    requires c.Valid() && q != c.escrow
    ensures EscrowKept(c, s, AirtimeMove(c, s, q, charge, env).0)
  {
    hide State.Transfer, State.WithUser, ClaimsOpened, HeldSum;
    var e := s.WithUser(c.sink);
    SinkIsRegistered(c, s);
    TransferKeepsOthers(e, q, WalletOf(c.sink), charge, env.outcome, c.escrow);
    var t := e.Transfer(q, WalletOf(c.sink), charge, env.outcome).0;
    TransferKeepsOthers(t, c.sink, WalletOf(q), charge, env.refund, c.escrow);
  }

  lemma HeldSendStaysOk(c: Config, s: State, now: nat, q: Phone, m: Pending, o: Outcome)
    requires ClaimsOk(c, s) && q != c.escrow && !IsTelegram(q) && m.PSend? && m.amount > 0 && m.pendingClaim && m.toPhone.Some?
    ensures var t := SendFx(c, s, now, q, m, o).0;
            ClaimsOk(c, t) && Aged(s, t) && s.claims <= t.claims && Slack(c, t) >= Slack(c, s)
  {
    hide HeldSum, ClaimsOpened, Hold;
    var t := SendFx(c, s, now, q, m, o).0;
    if m.key !in s.idem {
      var s1 := s.(idem := s.idem[m.key := InFlight]);
      SameClaimsStayOk(c, s, s1);
      HoldStaysOk(c, s1, now, q, m.toPhone.value, m.amount, o);
      var s2 := Hold(c, s1, now, q, m.toPhone.value, m.amount, o).0;
      assert t.claims == s2.claims && t.users == s2.users && t.balance == s2.balance;
      SameClaimsStayOk(c, s2, t);
    } else {
      SameClaimsStayOk(c, s, t);
    }
  }

  lemma KeptEscrowStaysOk(c: Config, s: State, t: State)
    requires ClaimsOk(c, s) && EscrowKept(c, s, t)
    ensures ClaimsOk(c, t) && Aged(s, t) && s.claims <= t.claims && Slack(c, t) >= Slack(c, s)
  {
    SameClaimsStayOk(c, s, t);
  }

  lemma PaymentStaysOk(c: Config, s: State, now: nat, q: Phone, m: Pending, env: Env)
    requires c.Valid() && ClaimsOk(c, s) && q != c.escrow && !IsTelegram(q) && Money(m) && (m.PSend? ==> m.amount > 0)
    ensures var t := PayFx(c, s, now, q, m, env).0;
            ClaimsOk(c, t) && Aged(s, t) && s.claims <= t.claims && Slack(c, t) >= Slack(c, s)
  {
    var t := PayFx(c, s, now, q, m, env).0;
    if m.PSend? && m.pendingClaim && m.toPhone.Some? {
      HeldSendStaysOk(c, s, now, q, m, env.outcome);
    } else {
      if m.PSend? {
        PlainSendKeepsEscrow(c, s, now, q, m, env.outcome);
      } else if m.PSwap? {
        SwapKeepsEscrow(c, s, now, q, m, env.outcome, env.got);
      } else {
        TopupKeepsEscrow(c, s, now, q, m, env);
      }
      KeptEscrowStaysOk(c, s, t);
    }
  }

  // ----- jobs -----

  lemma JobStaysOk(c: Config, s: State, now: nat, ids: seq<nat>, job: Job, outcomes: seq<Outcome>)
    requires ClaimsOk(c, s) && Listed(s.claims, ids) && PayeeIsPerson(c, job)
    ensures var t := PayMany(c, WithEscrow(c, s), now, ids, job, outcomes, |ids|).0;
            ClaimsOk(c, t) && Aged(s, t)
  {
    var e := WithEscrow(c, s);
    EscrowUserChangesNothing(c, s);
    JobKeepsClaims(c, e, now, ids, job, outcomes, |ids|);
    SettledStaysOk(c, s, PayMany(c, e, now, ids, job, outcomes, |ids|).0);
  }

  lemma FulfilStaysOk(c: Config, s: State, now: nat, q: Phone, outcomes: seq<Outcome>)
    requires ClaimsOk(c, s) && q != c.escrow
    ensures ClaimsOk(c, Fulfil(c, s, now, q, outcomes).0) && Aged(s, Fulfil(c, s, now, q, outcomes).0)
  {
    SameClaimsStayOk(c, s, s);
    if HeldClaimsOf(s.claims, q) != [] && q in s.users {
      JobStaysOk(c, s, now, HeldClaimsOf(s.claims, q), Release(q), outcomes);
    }
  }

  /** The tables when set-up has stored the PIN and is about to release the claims. */
  function WithPin(s: State, q: Phone, pin: string): State {
    s.WithUser(q).WithUser(q).PutPin(q, pin).PutPending(q, None)
  }

  lemma CompletionFulfils(c: Config, s: State, t: State, now: nat, q: Phone, intent: Intent, env: Env)
    requires Completes(c, s, t, now, q, intent, env)
    ensures t == Fulfil(c, WithPin(s, q, intent.newPin), now, q, env.payouts).0
    ensures var u := WithPin(s, q, intent.newPin);
            q in u.users && s.users.Keys <= u.users.Keys && u.claims == s.claims && u.balance == s.balance && Slack(c, u) == Slack(c, s)
  {
  }

  // ----- every step -----

  lemma CompletionStaysOk(c: Config, s: State, t: State, now: nat, q: Phone, intent: Intent, env: Env)
    requires ClaimsOk(c, s) && q != c.escrow && Completes(c, s, t, now, q, intent, env)
    ensures ClaimsOk(c, t) && Aged(s, t)
  {
    CompletionFulfils(c, s, t, now, q, intent, env);
    var u := WithPin(s, q, intent.newPin);
    SameClaimsStayOk(c, s, u);
    FulfilStaysOk(c, u, now, q, env.payouts);
    AgedChain(s, u, t);
  }

  lemma PayingStaysOk(c: Config, s: State, t: State, now: nat, q: Phone, pin: Option<string>, env: Env)
    requires c.Valid() && ClaimsOk(c, s) && c.Ordinary(q) && !IsTelegram(q) && Bound(s, now, q) && Pays(c, s, t, now, q, pin, env)
    ensures ClaimsOk(c, t) && Aged(s, t) && s.claims <= t.claims && Slack(c, t) >= Slack(c, s)
  {
    var u := s.ClearFails(q);
    SameClaimsStayOk(c, s, u);
    PaymentStaysOk(c, u, now, q, s.sessions[q], env);
    AgedChain(s, u, t);
  }

  /** Claims and balances are as they were. */
  ghost predicate MoneyUntouched(s: State, t: State) {
    t.claims == s.claims && t.balance == s.balance && s.users.Keys <= t.users.Keys
  }

  lemma LightIsUntouched(s: State, t: State, q: Phone)
    requires Light(s, t, q)
    ensures MoneyUntouched(s, t)
  {
  }

  lemma OtherwiseUntouched(c: Config, s: State, t: State, now: nat, q: Phone, m: Message)
    requires |c.tiers| == 3 && MessageKind(c, s, t, now, q, m)
    ensures || MoneyUntouched(s, t)
            || Completes(c, s, t, now, q, m.intent, m.env)
            || Pays(c, s, t, now, q, if m.intent.ConfirmWith? then m.intent.pin else None, m.env)
  {
    hide Light, Completes, Pays, MessageKind;
    MessageIsLight(c, s, t, now, q, m);
    if Light(s, t, q) {
      LightIsUntouched(s, t, q);
    }
  }

  lemma MessageStaysOk(c: Config, s: State, t: State, now: nat, q: Phone, m: Message)
    requires c.Valid() && ClaimsOk(c, s) && c.Ordinary(q) && !IsTelegram(q) && Bound(s, now, q) && MessageKind(c, s, t, now, q, m)
    ensures ClaimsOk(c, t) && Aged(s, t)
    ensures Completes(c, s, t, now, q, m.intent, m.env) || (Slack(c, t) >= Slack(c, s) && s.claims <= t.claims)
  {
    OtherwiseUntouched(c, s, t, now, q, m);
    if Completes(c, s, t, now, q, m.intent, m.env) {
      CompletionStaysOk(c, s, t, now, q, m.intent, m.env);
    } else if MoneyUntouched(s, t) {
      SameClaimsStayOk(c, s, t);
    } else {
      PayingStaysOk(c, s, t, now, q, if m.intent.ConfirmWith? then m.intent.pin else None, m.env);
    }
  }

  lemma SharingKeepsPhones(s: State, t: State, phone: Phone, tg: Phone)
    requires Channels.Shares(s, t, phone, tg)
    ensures PhonesStay(s, t)
  {
    forall p | p in s.users && !IsTelegram(p) ensures p in t.users {
      assert Channels.Untouched(s, t, p) || Channels.Dropped(s, t, p) || Channels.Untouched(s.WithUser(p), t, p);
    }
  }

  lemma StepStaysOk(c: Config, s: State, i: Input)
    requires c.Valid() && ClaimsOk(c, s) && FromPeople(c, i) && Rooted(c, s)
    requires forall p | c.Ordinary(p) :: Bound(s, i.at, p)
    ensures ClaimsOk(c, Step(c, s, i)) && Aged(s, Step(c, s, i))
  {
    var t := Step(c, s, i);
    StepIsKnown(c, s, i);
    match i
    case Said(at, raw, m) =>
      if IsTelegram(NormalizePhone(raw)) {
        SameClaimsStayOk(c, s, t);
      } else {
        MessageStaysOk(c, s, t, at, NormalizePhone(raw), Expanded(s, i));
      }
    case ExpiryJob(at, outcomes) => JobStaysOk(c, s, at, HeldPast(s.claims, at), Refund, outcomes);
    case Shared(_, chatId, contact) =>
      SharingKeepsPhones(s, t, NormalizePhone(contact), Channels.ChatAccount(chatId));
      SameClaimsStayOk(c, s, t);
    case _ => SameClaimsStayOk(c, s, t);
  }

  lemma {:induction false} RunsKeepClaimsOk(c: Config, run: seq<Input>, t: seq<State>, k: nat)
    requires Run(c, run, t) && k <= |run|
    ensures ClaimsOk(c, t[k])
  {
    hide Step, FromPeople;
    if k > 0 {
      RunsKeepClaimsOk(c, run, t, k - 1);
      StepOfRun(c, run, t, k - 1);
      StepStaysOk(c, t[k - 1], run[k - 1]);
    }
  }

  lemma {:induction false} RunsAgeClaims(c: Config, run: seq<Input>, t: seq<State>, j: nat, k: nat)
    requires Run(c, run, t) && j <= k <= |run|
    ensures Aged(t[j], t[k])
    decreases k
  {
    hide Step, FromPeople;
    if j < k {
      RunsAgeClaims(c, run, t, j, k - 1);
      RunsKeepClaimsOk(c, run, t, k - 1);
      StepOfRun(c, run, t, k - 1);
      StepStaysOk(c, t[k - 1], run[k - 1]);
      AgedChain(t[j], t[k - 1], t[k]);
    }
  }

  /** The life of a claim: its parties and amount never change, it leaves `Held` at most once and never
      returns, it is never written off, and its sender always has an account to refund (only accounts
      of provisional chats are ever deleted). */
  lemma ClaimsSettleOnce(c: Config, run: seq<Input>, t: seq<State>, j: nat, k: nat, id: nat)
    requires Run(c, run, t) && j <= k <= |run| && id < |t[j].claims|
    ensures id < |t[k].claims|
    ensures var was, now := t[j].claims[id], t[k].claims[id];
            && now == was.(status := now.status)
            && (was.status != Held ==> now.status == was.status)
            && now.status in {Held, Claimed, Refunded}
            && now.from in t[k].users && !IsTelegram(now.from)
  {
    RunsAgeClaims(c, run, t, j, k);
    RunsKeepClaimsOk(c, run, t, k);
    assert SameOrSettled(t[j].claims[id], t[k].claims[id]);
  }

  /** No sender opens more than the configured number of claims on one UTC day. */
  lemma ClaimsPerDayAreCapped(c: Config, run: seq<Input>, t: seq<State>, k: nat, p: Phone, day: nat)
    requires Run(c, run, t) && k <= |run|
    ensures ClaimsOpened(t[k].claims, p, day) <= c.claimCap
  {
    RunsKeepClaimsOk(c, run, t, k);
  }

  // ----- solvency of whole runs -----

  /** The payout operation that a step carries out, and the tables it starts from. */
  datatype Payout = Payout(from: State, op: Op) | NoPayout

  /** The expiry job is a sweep; a message that completes set-up ends with a release. */
  ghost function PayoutOf(c: Config, s: State, t: State, i: Input): Payout
    requires |c.tiers| == 3
  {
    if i.ExpiryJob? then Payout(s, Sweep(i.at, i.outcomes))
    else if i.Said? && Completes(c, s, t, i.at, NormalizePhone(i.raw), IntentOf(s, i), i.m.env) then
      Payout(WithPin(s, NormalizePhone(i.raw), IntentOf(s, i).newPin), PayTo(i.at, NormalizePhone(i.raw), i.m.env.payouts))
    else NoPayout
  }

  /** What the step from s to t adds to a stream out of the escrow. */
  ghost function StepFlow(c: Config, s: State, t: State, i: Input, part: Stream): nat
    requires |c.tiers| == 3
  {
    var x := PayoutOf(c, s, t, i);
    if x.Payout? then OpFlow(c, x.from, x.op, part) else 0
  }

  /** What the first k steps added to it. */
  ghost function RunFlow(c: Config, run: seq<Input>, t: seq<State>, k: nat, part: Stream): nat
    requires |c.tiers| == 3 && |t| == |run| + 1 && k <= |run|
  {
    if k == 0 then 0 else RunFlow(c, run, t, k - 1, part) + StepFlow(c, t[k - 1], t[k], run[k - 1], part)
  }

  lemma KnownPin(s: State, q: Phone, pin: string)
    ensures var u := WithPin(s, q, pin);
            && u == s.(users := u.users, sessions := u.sessions) && q in u.users && s.users.Keys <= u.users.Keys
            && (q in s.users ==> u.users[q] == s.users[q].(pin := Some(pin), fails := 0, lockedUntil := None))
  {
  }

  /** The payout operation of a step leads to the state after the step, from tables with the same claims,
      ledger and balances. */
  lemma PayoutsAreOperations(c: Config, s: State, t: State, i: Input)
    requires |c.tiers| == 3 && ClaimsOk(c, s) && FromPeople(c, i) && PayoutOf(c, s, t, i).Payout?
    requires i.ExpiryJob? ==> t == Expire(c, s, i.at, i.outcomes).0
    ensures var x := PayoutOf(c, s, t, i);
            && t == Operate(c, x.from, x.op) && ByPeople(c, x.op) && !x.op.Open? && ClaimsOk(c, x.from)
            && x.from.claims == s.claims && x.from.balance == s.balance && x.from.ledger == s.ledger
            && Slack(c, x.from) == Slack(c, s)
  {
    hide SetPinFx, HeldSum, Fulfil, Expire;
    if !i.ExpiryJob? {
      var q, intent := NormalizePhone(i.raw), IntentOf(s, i);
      CompletionFulfils(c, s, t, i.at, q, intent, i.m.env);
      KnownPin(s, q, intent.newPin);
      SameClaimsStayOk(c, s, WithPin(s, q, intent.newPin));
    }
  }

  /** A step without a payout opens claims at most and takes nothing from the escrow. */
  lemma OtherStepsKeepClaims(c: Config, s: State, i: Input)
    requires c.Valid() && ClaimsOk(c, s) && FromPeople(c, i) && Rooted(c, s)
    requires forall p | c.Ordinary(p) :: Bound(s, i.at, p)
    requires PayoutOf(c, s, Step(c, s, i), i).NoPayout?
    ensures s.claims <= Step(c, s, i).claims && Slack(c, Step(c, s, i)) >= Slack(c, s)
  {
    hide NormalizePhone, HandleFx, JoinFx, MemoFx, Expire, HeldSum, Completes, Channels.Share;
    var t := Step(c, s, i);
    StepIsKnown(c, s, i);
    match i
    case Said(at, raw, m) =>
      if !IsTelegram(NormalizePhone(raw)) {
        MessageStaysOk(c, s, t, at, NormalizePhone(raw), Expanded(s, i));
      }
    case Deposited(_, to, amount) =>
      assert t == s.(balance := t.balance);
    case ExpiryJob(_, _) =>
    case _ => assert t.claims == s.claims && t.balance == s.balance;
  }

  lemma StepConserves(c: Config, s: State, i: Input)
    requires c.Valid() && ClaimsOk(c, s) && FromPeople(c, i) && Rooted(c, s)
    requires forall p | c.Ordinary(p) :: Bound(s, i.at, p)
    ensures var t := Step(c, s, i);
            Slack(c, t) + StepFlow(c, s, t, i, Burned) + StepFlow(c, s, t, i, Leaked) >= Slack(c, s)
  {
    hide Step, OpFlow, Slack, PayoutOf, ClaimsOk;
    var t := Step(c, s, i);
    if PayoutOf(c, s, t, i).Payout? {
      ExpirySteps(c, s, i);
      PayoutsAreOperations(c, s, t, i);
      ClaimsOkIsGrounded(c, PayoutOf(c, s, t, i).from);
      OperationConserves(c, PayoutOf(c, s, t, i).from, PayoutOf(c, s, t, i).op);
    } else {
      OtherStepsKeepClaims(c, s, i);
    }
  }

  lemma ExpirySteps(c: Config, s: State, i: Input)
    requires |c.tiers| == 3
    ensures i.ExpiryJob? ==> Step(c, s, i) == Expire(c, s, i.at, i.outcomes).0
  {
  }

  lemma ClaimsOkIsGrounded(c: Config, s: State)
    requires ClaimsOk(c, s)
    ensures Grounded(c, s)
  {
  }

  /** In every run, however its payouts end, what the escrow owes exceeds its balance by at most the gas
      it has burned and the money that leaked through transfers that threw after moving it. */
  lemma {:induction false} EscrowStaysSolvent(c: Config, run: seq<Input>, t: seq<State>, k: nat)
    requires Run(c, run, t) && k <= |run|
    ensures HeldSum(t[k].claims) <= t[k].Bal(c.escrow) + RunFlow(c, run, t, k, Burned) + RunFlow(c, run, t, k, Leaked)
  {
    hide Step, FromPeople, StepFlow;
    if k > 0 {
      EscrowStaysSolvent(c, run, t, k - 1);
      RunsKeepClaimsOk(c, run, t, k - 1);
      StepOfRun(c, run, t, k - 1);
      StepConserves(c, t[k - 1], run[k - 1]);
    }
  }

  // ----- settled claims over whole runs -----

  /** Payouts land or fail; they do not do both. */
  ghost predicate ClearPayouts(i: Input) {
    (i.Said? ==> AllUnambiguous(i.m.env.payouts)) && (i.ExpiryJob? ==> AllUnambiguous(i.outcomes))
  }

  ghost predicate FreePayouts(i: Input) {
    ClearPayouts(i) && (i.Said? ==> FreeOfGas(i.m.env.payouts)) && (i.ExpiryJob? ==> FreeOfGas(i.outcomes))
  }

  ghost predicate AllClear(run: seq<Input>) {
    forall k | 0 <= k < |run| :: ClearPayouts(run[k])
  }

  ghost predicate AllFree(run: seq<Input>) {
    forall k | 0 <= k < |run| :: FreePayouts(run[k])
  }

  lemma ClearStepsDoNotLeak(c: Config, s: State, i: Input)
    requires c.Valid() && ClaimsOk(c, s) && FromPeople(c, i) && ClearPayouts(i)
    ensures StepFlow(c, s, Step(c, s, i), i, Leaked) == 0
    ensures FreePayouts(i) && c.reserve == 0 && Slack(c, s) >= 0 ==> StepFlow(c, s, Step(c, s, i), i, Burned) == 0
  {
    hide Step, OpFlow, Slack, ClaimsOk, Completes;
    var t := Step(c, s, i);
    if PayoutOf(c, s, t, i).Payout? {
      ExpirySteps(c, s, i);
      PayoutsAreOperations(c, s, t, i);
      ClaimsOkIsGrounded(c, PayoutOf(c, s, t, i).from);
      OperationConserves(c, PayoutOf(c, s, t, i).from, PayoutOf(c, s, t, i).op);
    }
  }

  /** If payouts land or fail nothing leaks, and with sponsored gas the escrow can always pay everything. */
  lemma {:induction false} SponsoredEscrowOwesNothing(c: Config, run: seq<Input>, t: seq<State>, k: nat)
    requires Run(c, run, t) && k <= |run| && AllClear(run)
    ensures RunFlow(c, run, t, k, Leaked) == 0
    ensures c.reserve == 0 && AllFree(run) ==> RunFlow(c, run, t, k, Burned) == 0 && Slack(c, t[k]) >= 0
  {
    hide Step, FromPeople, StepFlow, HeldSum;
    EscrowStaysSolvent(c, run, t, k);
    if k > 0 {
      SponsoredEscrowOwesNothing(c, run, t, k - 1);
      RunsKeepClaimsOk(c, run, t, k - 1);
      StepOfRun(c, run, t, k - 1);
      assert ClearPayouts(run[k - 1]) && (AllFree(run) ==> FreePayouts(run[k - 1]));
      ClearStepsDoNotLeak(c, t[k - 1], run[k - 1]);
    }
  }

  /** The row that books a settled claim: a claim to its payee, or a refund to its sender. */
  function SettledRow(k: Claim, status: ClaimStatus, pay: nat, at: nat): LedgerRow {
    if status == Claimed then LedgerRow(k.to, EscrowClaim, pay, Some(k.from), at) else LedgerRow(k.from, EscrowRefund, pay, Some(k.to), at)
  }

  /** The turn at which a payout operation settles a claim: the row it books, and what it pays at least. */
  lemma OperationSettles(c: Config, s: State, t: State, op: Op, id: nat) returns (n: nat, r: nat)
    requires Grounded(c, s) && ByPeople(c, op) && t == Operate(c, s, op)
    requires id < |s.claims| && s.claims[id].status == Held && id < |t.claims| && t.claims[id].status != Held
    ensures !op.Open? && n < |Listing(s, op)| && |s.ledger| <= r < |t.ledger|
    ensures var row, want := t.ledger[r], s.claims[id].amount;
            && row == SettledRow(s.claims[id], t.claims[id].status, row.amount, op.now)
            && t.Bal(row.phone) >= s.Bal(row.phone) + row.amount
            && row.amount <= want
            && row.amount >= Min(want, want - c.reserve + Slack(c, s) - OpFlow(c, s, op, Burned) - OpFlow(c, s, op, Leaked))
  {
    hide Operate, PayMany, HeldSum, Slack, Grounded, MovesMoney, PayOne, PayFlow, JobFlow;
    n := OnlyJobsSettle(c, s, op, id);
    var e, ids, job, outcomes := WithEscrow(c, s), Listing(s, op), JobOf(op), OutcomesOf(op);
    EscrowUserChangesNothing(c, s);
    SettledClaimsAreBooked(c, e, op.now, ids, job, outcomes, n);
    TurnPaysEnough(c, e, op.now, ids, job, outcomes, n);
    FlowsGrow(c, e, op.now, ids, job, outcomes, n, |ids|, Burned);
    FlowsGrow(c, e, op.now, ids, job, outcomes, n, |ids|, Leaked);
    r := |s.ledger| + PayMany(c, e, op.now, ids, job, outcomes, n).1;
    SameBalances(c, s);
    JobKeepsClaims(c, e, op.now, ids, job, outcomes, |ids|);
    assert SettledBy(job, s.claims[id], t.claims[id]);
    PayeeIsListed(s, op, id, n);
  }

  lemma PayeeIsListed(s: State, op: Op, id: nat, n: nat)
    requires n < |Listing(s, op)| && Listing(s, op)[n] == id
    ensures id < |s.claims| && (op.PayTo? ==> s.claims[id].to == op.payee)
  {
    assert id in Listing(s, op);
    if op.PayTo? && op.payee in s.users {
      assert id in HeldClaimsOf(s.claims, op.payee);
    }
  }

  lemma {:induction false} FlowsGrow(c: Config, s: State, now: nat, ids: seq<nat>, job: Job, outcomes: seq<Outcome>, m: nat, n: nat, part: Stream)
    requires m <= n <= |ids| && forall k | k in ids :: k < |s.claims|
    ensures JobFlow(c, s, now, ids, job, outcomes, m, part) <= JobFlow(c, s, now, ids, job, outcomes, n, part)
    decreases n
  {
    hide PayMany, PayFlow;
    if m < n {
      FlowsGrow(c, s, now, ids, job, outcomes, m, n - 1, part);
    }
  }

  /** A step that settles a claim does it by its payout. */
  lemma OnlyPayoutsSettle(c: Config, s: State, i: Input, id: nat)
    requires c.Valid() && ClaimsOk(c, s) && FromPeople(c, i) && Rooted(c, s)
    requires forall p | c.Ordinary(p) :: Bound(s, i.at, p)
    requires id < |s.claims| && id < |Step(c, s, i).claims| && Step(c, s, i).claims[id] != s.claims[id]
    ensures PayoutOf(c, s, Step(c, s, i), i).Payout?
  {
    hide Step, PayoutOf, Slack, ClaimsOk;
    if PayoutOf(c, s, Step(c, s, i), i).NoPayout? {
      OtherStepsKeepClaims(c, s, i);
    }
  }

  lemma StepSettles(c: Config, s: State, i: Input, id: nat) returns (r: nat)
    requires c.Valid() && ClaimsOk(c, s) && FromPeople(c, i) && Rooted(c, s)
    requires forall p | c.Ordinary(p) :: Bound(s, i.at, p)
    requires var t := Step(c, s, i);
             id < |s.claims| && s.claims[id].status == Held && id < |t.claims| && t.claims[id].status != Held
    ensures var t := Step(c, s, i);
            && |s.ledger| <= r < |t.ledger|
            && var row, want := t.ledger[r], s.claims[id].amount;
               && row == SettledRow(s.claims[id], t.claims[id].status, row.amount, i.at)
               && t.Bal(row.phone) >= s.Bal(row.phone) + row.amount
               && row.amount <= want
               && row.amount >= Min(want, want - c.reserve + Slack(c, s) - StepFlow(c, s, t, i, Burned) - StepFlow(c, s, t, i, Leaked))
  {
    hide Step, OpFlow, Slack, ClaimsOk, Operate, SettledRow, Listing;
    var t := Step(c, s, i);
    OnlyPayoutsSettle(c, s, i, id);
    ExpirySteps(c, s, i);
    PayoutsAreOperations(c, s, t, i);
    var x := PayoutOf(c, s, t, i);
    ClaimsOkIsGrounded(c, x.from);
    var n;
    n, r := OperationSettles(c, x.from, t, x.op, id);
    assert x.from.Bal(t.ledger[r].phone) == s.Bal(t.ledger[r].phone);
  }

  /** Over every run: a step that settles a claim adds a ledger row that books the payout to the claim's
      payee, or the refund to its sender, and their wallet has grown by it.  It is at most the amount of
      the claim and at least the amount less the reserve, less all gas burned and all money leaked so far;
      with sponsored gas and payouts that land or fail it is exactly the amount. */
  lemma SettledClaimsGetTheirMoney(c: Config, run: seq<Input>, t: seq<State>, k: nat, id: nat) returns (r: nat)
    requires Run(c, run, t) && k < |run| && id < |t[k].claims| && t[k].claims[id].status == Held
    requires id < |t[k + 1].claims| && t[k + 1].claims[id].status != Held
    ensures |t[k].ledger| <= r < |t[k + 1].ledger|
    ensures var row, want := t[k + 1].ledger[r], t[k].claims[id].amount;
            && row == SettledRow(t[k].claims[id], t[k + 1].claims[id].status, row.amount, run[k].at)
            && t[k + 1].Bal(row.phone) >= t[k].Bal(row.phone) + row.amount
            && want >= row.amount >= want - c.reserve - RunFlow(c, run, t, k + 1, Burned) - RunFlow(c, run, t, k + 1, Leaked)
            && (c.reserve == 0 && AllFree(run) ==> row.amount == want)
  {
    hide Step, FromPeople, StepFlow, HeldSum, SettledRow, ClaimsOk;
    StepOfRun(c, run, t, k);
    RunsKeepClaimsOk(c, run, t, k);
    EscrowStaysSolvent(c, run, t, k);
    r := StepSettles(c, t[k], run[k], id);
    if AllFree(run) {
      assert AllClear(run);
      SponsoredEscrowOwesNothing(c, run, t, k);
      SponsoredEscrowOwesNothing(c, run, t, k + 1);
    }
  }

  // ----- set-up releases everything -----

  /** With sponsored gas, when a phone completes its set-up and the transfers land, no claim to that
      phone is held any more. */
  lemma SetupReleasesEveryClaim(c: Config, run: seq<Input>, t: seq<State>, k: nat, id: nat)
    requires Run(c, run, t) && c.reserve == 0 && k < |run| && AllFree(run) && run[k].Said?
    requires Completes(c, t[k], t[k + 1], run[k].at, NormalizePhone(run[k].raw), IntentOf(t[k], run[k]), run[k].m.env)
    requires AllLand(run[k].m.env.payouts, |HeldClaimsOf(t[k].claims, NormalizePhone(run[k].raw))|)
    requires id < |t[k + 1].claims| && t[k + 1].claims[id].to == NormalizePhone(run[k].raw)
    ensures t[k + 1].claims[id].status != Held
  {
    hide Step, NormalizePhone, HeldSum, SetPinFx;
    var i, q := run[k], NormalizePhone(run[k].raw);
    StepOfRun(c, run, t, k);
    RunsKeepClaimsOk(c, run, t, k);
    assert AllClear(run);
    SponsoredEscrowOwesNothing(c, run, t, k);
    CompletionFulfils(c, t[k], t[k + 1], i.at, q, IntentOf(t[k], i), i.m.env);
    var u := WithPin(t[k], q, IntentOf(t[k], i).newPin);
    SameClaimsStayOk(c, t[k], u);
    assert FreePayouts(i);
    NothingStaysHeld(c, u, i.at, q, i.m.env.payouts);
  }
}
