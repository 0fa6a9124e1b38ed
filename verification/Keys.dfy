/** Idempotency keys over whole runs: the key that the next order will draw has never been tried. */
module Keys {
  import opened Text
  import opened Tables
  import opened Settings
  import opened Policy
  import opened Payees
  import opened Pipeline
  import opened Frames
  import opened Runs
  import opened Effects
  import opened Steps
  import opened Payments
  import opened Safety
  import opened ClaimRuns
  import Claims

  /** Every key tried, and every key in a slot, was drawn before. */
  ghost predicate Drawn(c: Config, s: State) {
    && (forall key | key in s.idem :: key < s.nextKey)
    && forall p | c.Ordinary(p) && p in s.sessions && Money(s.sessions[p]) :: KeyOf(s.sessions[p]) < s.nextKey
  }

  /** No key was tried, and none was taken back. */
  predicate SameKeys(s: State, t: State) {
    t.idem == s.idem && s.nextKey <= t.nextKey
  }

  lemma PayOutKeys(c: Config, s: State, now: nat, id: nat, to: Phone, from: Phone, status: ClaimStatus, kind: Kind, o: Outcome)
    requires id < |s.claims|
    ensures SameKeys(s, Claims.PayOut(c, s, now, id, to, from, status, kind, o).0)
  {
    hide State.Transfer, State.Bal;
    var pay := Claims.Payable(s.claims[id].amount, s.Bal(c.escrow), c.reserve);
    if pay > 0 {
      TransferShape(s, c.escrow, WalletOf(to), pay, o);
    }
  }

  lemma PayOneKeys(c: Config, s: State, now: nat, id: nat, job: Claims.Job, o: Outcome)
    requires id < |s.claims|
    ensures SameKeys(s, Claims.PayOne(c, s, now, id, job, o).0)
  {
    hide Claims.PayOut;
    var k := s.claims[id];
    if job.Release? {
      PayOutKeys(c, s, now, id, job.payee, k.from, Claimed, EscrowClaim, o);
    } else if k.from in s.users {
      PayOutKeys(c, s, now, id, k.from, k.to, Refunded, EscrowRefund, o);
    }
  }

  lemma {:induction false} JobKeys(c: Config, s: State, now: nat, ids: seq<nat>, job: Claims.Job, outcomes: seq<Outcome>, n: nat)
    requires n <= |ids| && forall k | k in ids :: k < |s.claims|
    ensures SameKeys(s, Claims.PayMany(c, s, now, ids, job, outcomes, n).0)
  {
    hide Claims.PayOne;
    if n > 0 {
      JobKeys(c, s, now, ids, job, outcomes, n - 1);
      Claims.PayManyStep(c, s, now, ids, job, outcomes, n);
      PayOneKeys(c, Claims.PayMany(c, s, now, ids, job, outcomes, n - 1).0, now, ids[n - 1], job, Claims.OutcomeAt(outcomes, n - 1));
    }
  }

  lemma ExpireKeys(c: Config, s: State, now: nat, outcomes: seq<Outcome>)
    ensures SameKeys(s, Claims.Expire(c, s, now, outcomes).0)
  {
    hide Claims.PayMany, Claims.WithEscrow;
    var ids := Claims.HeldPast(s.claims, now);
    Claims.EscrowUserOnly(c, s);
    JobKeys(c, Claims.WithEscrow(c, s), now, ids, Claims.Refund, outcomes, |ids|);
  }

  lemma CompletionKeys(c: Config, s: State, t: State, now: nat, q: Phone, intent: Intent, env: Env)
    requires Completes(c, s, t, now, q, intent, env)
    ensures SameKeys(s, t)
  {
    hide Claims.PayMany, Claims.WithEscrow, SetPinFx;
    CompletionFulfils(c, s, t, now, q, intent, env);
    var u := WithPin(s, q, intent.newPin);
    KnownPin(s, q, intent.newPin);
    var ids := Claims.HeldClaimsOf(u.claims, q);
    if ids != [] && q in u.users {
      Claims.EscrowUserOnly(c, u);
      JobKeys(c, Claims.WithEscrow(c, u), now, ids, Claims.Release(q), env.payouts, |ids|);
    }
  }

  /** A message tries at most the key of the order in the slot of its caller. */
  lemma TidyKeys(s: State, t: State, now: nat, q: Phone)
    requires Tidy(s, t, now, q)
    ensures SameKeys(s, t)
  {
    hide ActiveRules, SumLocked;
  }

  lemma OpeningKeys(c: Config, s: State, t: State, now: nat, q: Phone, intent: Intent)
    requires |c.tiers| == 3 && Opens(c, s, t, now, q, intent)
    ensures SameKeys(s, t)
  {
    hide Accepted, ReleaseRows;
  }

  lemma ClosingKeys(s: State, t: State, now: nat, q: Phone)
    requires Locks(s, t, now, q) || exists pin :: Freezes(s, t, now, q, pin)
    ensures SameKeys(s, t)
  {
    hide FreezeRows, RevokeRows;
  }

  lemma PayingKeys(c: Config, s: State, t: State, now: nat, q: Phone, pin: Option<string>, env: Env)
    requires c.Ordinary(q) && Pays(c, s, t, now, q, pin, env) && Drawn(c, s)
    ensures (forall key | key in t.idem :: key < t.nextKey) && s.nextKey <= t.nextKey
  {
    hide PayFx;
    PayingSpends(c, s.ClearFails(q), now, q, s.sessions[q], env);
  }

  /** A message tries at most the key of the order in the slot of its caller. */
  lemma MessageKeys(c: Config, s: State, t: State, now: nat, q: Phone, m: Message)
    requires |c.tiers| == 3 && c.Ordinary(q) && MessageKind(c, s, t, now, q, m) && Drawn(c, s)
    ensures (forall key | key in t.idem :: key < t.nextKey) && s.nextKey <= t.nextKey
  {
    hide Pays, Completes, Tidy, Opens, Locks, Freezes;
    if Completes(c, s, t, now, q, m.intent, m.env) {
      CompletionKeys(c, s, t, now, q, m.intent, m.env);
    } else if Pays(c, s, t, now, q, if m.intent.ConfirmWith? then m.intent.pin else None, m.env) {
      PayingKeys(c, s, t, now, q, if m.intent.ConfirmWith? then m.intent.pin else None, m.env);
    } else if Tidy(s, t, now, q) {
      TidyKeys(s, t, now, q);
    } else if Opens(c, s, t, now, q, m.intent) {
      OpeningKeys(c, s, t, now, q, m.intent);
    } else {
      ClosingKeys(s, t, now, q);
    }
  }

  lemma StepKeys(c: Config, s: State, i: Input)
    requires |c.tiers| == 3 && FromPeople(c, i) && Rooted(c, s) && Drawn(c, s)
    ensures var t := Step(c, s, i); (forall key | key in t.idem :: key < t.nextKey) && s.nextKey <= t.nextKey
  {
    hide Step, MessageKind, Tidy, Claims.Expire, NormalizePhone, IsTelegram, Guarded;
    var t := Step(c, s, i);
    StepIsKnown(c, s, i);
    match i
    case Said(at, raw, m) => MessageKeys(c, s, t, at, NormalizePhone(raw), Expanded(s, i));
    case Called(at, raw) => TidyKeys(s, t, at, NormalizePhone(raw));
    case Flashed(at, raw) => TidyKeys(s, t, at, NormalizePhone(raw));
    case Memoed(at, raw, _) => TidyKeys(s, t, at, NormalizePhone(raw));
    case NameDropped(at, raw) => TidyKeys(s, t, at, NormalizePhone(raw));
    case ExpiryJob(at, outcomes) => ExpireKeys(c, s, at, outcomes);
    case _ =>
  }

  /** The order in the slot of p has a key that was drawn. */
  lemma OpenedSlot(c: Config, s: State, t: State, now: nat, p: Phone, intent: Intent)
    requires |c.tiers| == 3 && Opens(c, s, t, now, p, intent) && Money(t.sessions[p])
    ensures KeyOf(t.sessions[p]) < t.nextKey
  {
    hide SendGate, SwapGate, TopupGate, Resolve, AirtimeCharge, ReleaseRows;
  }

  lemma PaidSlot(c: Config, s: State, t: State, now: nat, p: Phone, pin: Option<string>, env: Env)
    requires c.Ordinary(p) && Pays(c, s, t, now, p, pin, env) && p in t.sessions
    ensures t.sessions[p] == s.sessions[p] && t.nextKey == s.nextKey
  {
    hide PayFx;
    PayingSpends(c, s.ClearFails(p), now, p, s.sessions[p], env);
  }

  lemma KeptSlot(s: State, t: State, now: nat, p: Phone)
    requires Harmless(s, t, now, p) && p in t.sessions && Money(t.sessions[p])
    ensures p in s.sessions && Money(s.sessions[p]) && KeyOf(t.sessions[p]) == KeyOf(s.sessions[p]) && s.nextKey <= t.nextKey
  {
    hide ActiveRules, SumLocked;
  }

  lemma ClosedSlot(s: State, t: State, now: nat, p: Phone)
    requires Locks(s, t, now, p) || (exists pin :: Freezes(s, t, now, p, pin)) || Leaves(s, t, p)
    ensures p !in t.sessions
  {
    hide FreezeRows, RevokeRows;
  }

  /** The order in the slot of p has a key that was drawn. */
  lemma SlotKeys(c: Config, s: State, i: Input, p: Phone)
    requires |c.tiers| == 3 && FromPeople(c, i) && Rooted(c, s) && Drawn(c, s) && c.Ordinary(p)
    requires p in Step(c, s, i).sessions && Money(Step(c, s, i).sessions[p])
    ensures KeyOf(Step(c, s, i).sessions[p]) < Step(c, s, i).nextKey
  {
    hide Step, Pays, Harmless, Opens, Locks, Freezes, Leaves, NormalizePhone;
    var t := Step(c, s, i);
    StepHasEffect(c, s, i, p);
    if Harmless(s, t, i.at, p) {
      KeptSlot(s, t, i.at, p);
    } else if By(s, i, p) && Opens(c, s, t, i.at, p, IntentOf(s, i)) {
      OpenedSlot(c, s, t, i.at, p, IntentOf(s, i));
    } else if By(s, i, p) && Pays(c, s, t, i.at, p, PinOf(s, i), i.m.env) {
      PaidSlot(c, s, t, i.at, p, PinOf(s, i), i.m.env);
      PaidHadMoney(c, s, t, i.at, p, PinOf(s, i), i.m.env);
    } else {
      ClosedSlot(s, t, i.at, p);
    }
  }

  lemma PaidHadMoney(c: Config, s: State, t: State, now: nat, p: Phone, pin: Option<string>, env: Env)
    requires Pays(c, s, t, now, p, pin, env)
    ensures p in s.sessions && Money(s.sessions[p])
  {
    hide PayFx;
  }

  lemma {:induction false} RunsDrawKeys(c: Config, run: seq<Input>, t: seq<State>, k: nat)
    requires Run(c, run, t) && k <= |run|
    ensures Drawn(c, t[k])
  {
    hide Step, FromPeople, Rooted;
    if k > 0 {
      RunsDrawKeys(c, run, t, k - 1);
      StepOfRun(c, run, t, k - 1);
      StepKeys(c, t[k - 1], run[k - 1]);
      forall p | c.Ordinary(p) && p in t[k].sessions && Money(t[k].sessions[p]) ensures KeyOf(t[k].sessions[p]) < t[k].nextKey {
        SlotKeys(c, t[k - 1], run[k - 1], p);
      }
    }
  }

  /** In every state of every run the next order's key has never been tried, so the order can be paid. */
  lemma NextKeyIsFresh(c: Config, run: seq<Input>, t: seq<State>, k: nat)
    requires Run(c, run, t) && k <= |run|
    ensures t[k].nextKey !in t[k].idem
  {
    hide Run;
    RunsDrawKeys(c, run, t, k);
  }
}
