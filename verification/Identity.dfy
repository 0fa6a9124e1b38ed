/** Identity tiers over whole runs (orchestrator/src/lib/identity.ts): a tier is only ever raised. */
module Identity {
  import opened Text
  import opened Tables
  import opened Settings
  import opened Payees
  import opened Pipeline
  import opened Runs
  import opened Effects
  import opened Steps
  import opened Safety
  import opened PinGuard
  import Channels
  import Claims
  import Names

  lemma PaymentKeepsTier(c: Config, s: State, t: State, now: nat, q: Phone, pin: Option<string>, env: Env, p: Phone)
    requires c.Ordinary(p) && Pays(c, s, t, now, q, pin, env)
    ensures t.Tier(p) == s.Tier(p)
  {
    hide PayFx;
    PaymentKeepsUsers(c, s.ClearFails(q), now, q, s.sessions[q], env);
  }

  lemma SetupKeepsTier(c: Config, s: State, t: State, now: nat, q: Phone, intent: Intent, env: Env, p: Phone)
    requires c.Ordinary(p) && Completes(c, s, t, now, q, intent, env)
    ensures t.Tier(p) == s.Tier(p)
  {
    hide Claims.Fulfil;
    var u := s.WithUser(q).WithUser(q).PutPin(q, intent.newPin).PutPending(q, None);
    assert u.Tier(p) == s.Tier(p);
    FulfilKeepsUsers(c, u, now, q, env.payouts);
  }

  lemma LightKeepsTier(s: State, t: State, q: Phone, p: Phone)
    requires Light(s, t, q)
    ensures s.Tier(p) <= t.Tier(p) && (p != q ==> t.Tier(p) == s.Tier(p))
  {
  }

  lemma MessageKeepsTier(c: Config, s: State, t: State, now: nat, q: Phone, m: Message, p: Phone)
    requires |c.tiers| == 3 && c.Ordinary(p) && MessageKind(c, s, t, now, q, m)
    ensures s.Tier(p) <= t.Tier(p)
  {
    hide Light, Completes, Pays, MessageKind;
    MessageIsLight(c, s, t, now, q, m);
    if Light(s, t, q) {
      LightKeepsTier(s, t, q, p);
    } else if Completes(c, s, t, now, q, m.intent, m.env) {
      SetupKeepsTier(c, s, t, now, q, m.intent, m.env, p);
    } else {
      PaymentKeepsTier(c, s, t, now, q, if m.intent.ConfirmWith? then m.intent.pin else None, m.env, p);
    }
  }

  lemma SharingKeepsTier(s: State, t: State, phone: Phone, tg: Phone, p: Phone)
    requires Channels.Shares(s, t, phone, tg)
    ensures t.Tier(p) == s.Tier(p) || (IsTelegram(p) && t.Tier(p) == 0)
  {
    assert Channels.Untouched(s, t, p) || Channels.Dropped(s, t, p) || Channels.Untouched(s.WithUser(p), t, p);
    assert s.WithUser(p).Tier(p) == s.Tier(p);
  }

  lemma StepKeepsTier(c: Config, s: State, i: Input, p: Phone)
    requires |c.tiers| == 3 && c.Ordinary(p) && FromPeople(c, i) && Rooted(c, s)
    requires IsTelegram(p) ==> s.Tier(p) == 0
    ensures s.Tier(p) <= Step(c, s, i).Tier(p)
  {
    hide HandleFx, JoinFx, MemoFx, Claims.Expire, NormalizePhone, Channels.Share, Names.Release;
    var t := Step(c, s, i);
    StepIsKnown(c, s, i);
    match i
    case Said(at, raw, m) =>
      MessageKeepsTier(c, s, t, at, NormalizePhone(raw), Expanded(s, i), p);
    case ExpiryJob(at, outcomes) => ExpireKeepsUsers(c, s, at, outcomes);
    case Shared(_, chatId, contact) => SharingKeepsTier(s, t, NormalizePhone(contact), Channels.ChatAccount(chatId), p);
    case _ =>
  }

  lemma OthersKeepTier(c: Config, s: State, t: State, now: nat, q: Phone, m: Message, p: Phone)
    requires |c.tiers| == 3 && c.Ordinary(p) && p != q && MessageKind(c, s, t, now, q, m)
    ensures t.Tier(p) == s.Tier(p)
  {
    hide Light, Completes, Pays, MessageKind;
    MessageIsLight(c, s, t, now, q, m);
    if Light(s, t, q) {
      LightKeepsTier(s, t, q, p);
    } else if Completes(c, s, t, now, q, m.intent, m.env) {
      SetupKeepsTier(c, s, t, now, q, m.intent, m.env, p);
    } else {
      PaymentKeepsTier(c, s, t, now, q, if m.intent.ConfirmWith? then m.intent.pin else None, m.env, p);
    }
  }

  lemma JoiningKeepsTier(s: State, q: Phone, p: Phone)
    ensures JoinFx(s, q, None).0.Tier(p) == s.Tier(p)
  {
    assert s.WithUser(q).Tier(p) == s.Tier(p);
    assert GreetFx(s.WithUser(q), q).0.users == s.WithUser(q).users;
  }

  lemma NameKeepsTier(s: State, q: Phone, p: Phone)
    ensures Names.Release(s, q).Tier(p) == s.Tier(p)
  {
  }

  lemma ChatsAreRefused(c: Config, s: State, at: nat, raw: string, m: Message)
    requires |c.tiers| == 3 && IsTelegram(NormalizePhone(raw))
    ensures HandleFx(c, s, at, raw, m).0 == s
  {
  }

  lemma ChatsStayLow(c: Config, s: State, i: Input, p: Phone)
    requires |c.tiers| == 3 && c.Ordinary(p) && FromPeople(c, i) && Rooted(c, s) && IsTelegram(p) && s.Tier(p) == 0
    ensures Step(c, s, i).Tier(p) == 0
  {
    hide HandleFx, MessageKind, JoinFx, Claims.Expire, NormalizePhone, Channels.Share, IsTelegram, Names.Release;
    var t := Step(c, s, i);
    match i
    case Said(at, raw, m) =>
      StepIsKnown(c, s, i);
      if NormalizePhone(raw) == p {
        ChatsAreRefused(c, s, at, raw, m);
      } else {
        OthersKeepTier(c, s, t, at, NormalizePhone(raw), Expanded(s, i), p);
      }
    case Called(at, raw) => JoiningKeepsTier(s, NormalizePhone(raw), p);
    case ExpiryJob(at, outcomes) => ExpireKeepsUsers(c, s, at, outcomes);
    case Shared(_, chatId, contact) =>
      Channels.SharingShares(s, chatId, contact);
      SharingKeepsTier(s, t, NormalizePhone(contact), Channels.ChatAccount(chatId), p);
    case NameDropped(_, raw) => NameKeepsTier(s, NormalizePhone(raw), p);
    case _ =>
  }

  /** A chat account never reaches a tier, so dropping it loses none. */
  lemma {:induction false} ChatsHaveNoTier(c: Config, run: seq<Input>, t: seq<State>, k: nat, p: Phone)
    requires Run(c, run, t) && c.Ordinary(p) && k <= |run|
    ensures IsTelegram(p) ==> t[k].Tier(p) == 0
  {
    hide Step, FromPeople;
    if k > 0 && IsTelegram(p) {
      ChatsHaveNoTier(c, run, t, k - 1, p);
      StepOfRun(c, run, t, k - 1);
      ChatsStayLow(c, t[k - 1], run[k - 1], p);
    }
  }

  /** No step of any run lowers a caller's identity tier, so the caps of a caller only ever rise. */
  lemma {:induction false} TiersNeverFall(c: Config, run: seq<Input>, t: seq<State>, j: nat, k: nat, p: Phone)
    requires Run(c, run, t) && c.Ordinary(p) && j <= k <= |run|
    ensures t[j].Tier(p) <= t[k].Tier(p)
    decreases k
  {
    hide Step, FromPeople;
    if j < k {
      TiersNeverFall(c, run, t, j, k - 1, p);
      StepOfRun(c, run, t, k - 1);
      ChatsHaveNoTier(c, run, t, k - 1, p);
      StepKeepsTier(c, t[k - 1], run[k - 1], p);
    }
  }
}
