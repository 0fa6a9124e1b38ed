/** The name registry and the chat links over whole runs (orchestrator/src/lib/hotlinens.ts,
    orchestrator/src/lib/channel.ts and their tables in orchestrator/src/lib/db.ts). */
module Registry {
  import opened Text
  import opened Tables
  import opened Settings
  import opened Payees
  import opened Pipeline
  import opened Runs
  import opened Channels
  import opened Labels
  import opened Registers
  import Claims
  import Names

  /** `hotline_names` and `users.hotline_name` are inverse to each other: every row is the name of its
      phone, and every name of a phone is its row. */
  ghost predicate Inverse(s: State) {
    && (forall n | n in s.names :: NameOf(s, s.names[n]) == Some(n))
    && (forall p | NameOf(s, p).Some? :: NameOf(s, p).value in s.names && s.names[NameOf(s, p).value] == p)
  }

  /** One chat per phone on each channel (one phone per chat is the table's key). */
  ghost predicate OneToOne(links: Links) {
    forall j, k | j in links && k in links && j.0 == k.0 && links[j] == links[k] :: j == k
  }

  /** Links lead to phones that have an account. */
  ghost predicate Anchored(s: State) {
    forall k | k in s.links :: s.links[k] in s.users && CanReceiveSms(s.links[k])
  }

  ghost predicate WellKept(s: State) {
    Inverse(s) && OneToOne(s.links) && Anchored(s)
  }

  lemma RostersStayKept(s: State, t: State)
    requires WellKept(s) && Rosters(s, t)
    ensures WellKept(t)
  {
  }

  lemma ClaimingKeepsInverse(s: State, p: Phone, raw: string)
    requires Inverse(s)
    ensures Inverse(Names.Claim(s, p, raw).Or(s))
  {
    hide NormalizeLabel, ValidName;
    var t := Names.Claim(s, p, raw).Or(s);
    if Names.Claim(s, p, raw).Some? {
      forall q | NameOf(t, q).Some? ensures NameOf(t, q).value in t.names && t.names[NameOf(t, q).value] == q {
        assert q != p ==> NameOf(t, q) == NameOf(s, q);
      }
      forall n | n in t.names ensures NameOf(t, t.names[n]) == Some(n) {
        assert t.names[n] != p ==> n in s.names && t.names[n] == s.names[n];
      }
    }
  }

  /** A released name is gone from both tables; all else is as it was. */
  lemma ReleasedNames(s: State, p: Phone)
    ensures var t := Names.Release(s, p);
            && t.names == Names.Without(s.names, p) && t.links == s.links && t.orders == s.orders && t.users.Keys == s.users.Keys
            && forall q :: NameOf(t, q) == if q == p then None else NameOf(s, q)
  {
    hide Names.Without;
    var t := Names.Release(s, p);
    if p in s.users {
      var u := s.users[p].(hotlineName := None);
      assert t == s.(names := t.names, users := s.users[p := u]);
    } else {
      assert t == s.(names := t.names);
    }
  }

  lemma ReleasingKeepsInverse(s: State, t: State, p: Phone)
    requires Inverse(s) && t.names == Names.Without(s.names, p)
    requires forall q :: NameOf(t, q) == if q == p then None else NameOf(s, q)
    ensures Inverse(t)
  {
    hide NameOf;
  }

  /** Claiming touches neither links nor the set of accounts. */
  lemma ClaimingKeepsAnchors(s: State, p: Phone, raw: string)
    ensures var t := Names.Claim(s, p, raw).Or(s); t.links == s.links && t.users.Keys == s.users.Keys
  {
    hide NormalizeLabel, ValidName, Names.Without;
    var t := Names.Claim(s, p, raw).Or(s);
    if Names.Claim(s, p, raw).Some? {
      assert t == s.(names := t.names, users := s.users[p := t.users[p]]);
    }
  }

  lemma NamingStaysKept(s: State, p: Phone, raw: string)
    requires WellKept(s)
    ensures WellKept(Names.Claim(s, p, raw).Or(s)) && WellKept(Names.Release(s, p))
  {
    hide Names.Claim, Names.Release, Inverse, OneToOne;
    ClaimingKeepsInverse(s, p, raw);
    ClaimingKeepsAnchors(s, p, raw);
    ReleasedNames(s, p);
    ReleasingKeepsInverse(s, Names.Release(s, p), p);
  }

  lemma LinkingKeepsOneToOne(links: Links, channel: string, chat: string, p: Phone)
    ensures var more := LinkTo(links, channel, chat, p);
            && (OneToOne(links) ==> OneToOne(more)) && (channel, chat) in more && more[(channel, chat)] == p
            && forall k | k in more :: more[k] == p || (k in links && more[k] == links[k])
  {
  }

  /** Sharing a contact keeps every name and every phone account. */
  lemma SharingKeepsNames(s: State, chatId: string, contact: string, p: Phone)
    ensures var t := Share(s, chatId, contact).0; NameOf(t, p) == NameOf(s, p)
    ensures p in s.users && !IsTelegram(p) ==> p in Share(s, chatId, contact).0.users
  {
    hide Share, HasHistory, NormalizePhone, ChatAccount, IsTelegram;
    var t := Share(s, chatId, contact).0;
    SharingShares(s, chatId, contact);
    assert Untouched(s, t, p) || Dropped(s, t, p) || Untouched(s.WithUser(p), t, p);
    assert NameOf(s.WithUser(p), p) == NameOf(s, p);
  }

  lemma SharingStaysKept(s: State, chatId: string, contact: string)
    requires WellKept(s)
    ensures WellKept(Share(s, chatId, contact).0)
  {
    hide Share, NormalizePhone, ChatId, LinkTo, DropProvisional, HasHistory, CanReceiveSms, IsTelegram, NameOf;
    var t, phone := Share(s, chatId, contact).0, NormalizePhone(contact);
    SharingShares(s, chatId, contact);
    SharedLinks(s, chatId, contact);
    forall p ensures NameOf(t, p) == NameOf(s, p) && (p in s.users && !IsTelegram(p) ==> p in t.users) {
      SharingKeepsNames(s, chatId, contact, p);
    }
    LinkingKeepsOneToOne(s.links, TELEGRAM, ChatId(chatId), phone);
    forall k | k in t.links ensures t.links[k] in t.users && CanReceiveSms(t.links[k]) {
      if t.links[k] != phone || !Share(s, chatId, contact).1 {
        assert k in s.links && t.links[k] == s.links[k];
        PhonesAreNoChats(t.links[k]);
      }
    }
  }

  /** The links after sharing; an accepted contact has an account. */
  lemma SharedLinks(s: State, chatId: string, contact: string)
    ensures var (t, ok) := Share(s, chatId, contact);
            var phone := NormalizePhone(contact);
            && t.links == (if ok then LinkTo(s.links, TELEGRAM, ChatId(chatId), phone) else s.links)
            && (ok ==> CanReceiveSms(phone) && phone in t.users)
  {
    hide Share, NormalizePhone, ChatId, LinkTo, DropProvisional, HasHistory, CanReceiveSms;
    var phone, tg := NormalizePhone(contact), ChatAccount(chatId);
    SharingCases(s, chatId, contact);
    if Share(s, chatId, contact).1 {
      var u := s.WithUser(phone);
      PhonesAreNoChats(phone);
      DroppingOnlyRemovesTheChat(u.(links := LinkTo(u.links, TELEGRAM, ChatId(chatId), phone)), tg);
    }
  }

  lemma StepStaysKept(c: Config, s: State, i: Input)
    requires |c.tiers| == 3 && WellKept(s)
    ensures WellKept(Step(c, s, i))
  {
    hide HandleFx, JoinFx, NormalizePhone, Claims.Expire, Share, Rosters, WellKept, Names.Claim, Names.Release, ReleaseRows;
    var t := Step(c, s, i);
    match i
    case Said(at, raw, m) =>
      HandlingRegisters(c, s, at, raw, m);
      var q := NormalizePhone(raw);
      MessageStaysKept(s, t, q, ExpandDigits(s, q, m.intent));
    case Called(_, raw) =>
      JoinStill(s, NormalizePhone(raw), None);
      RostersStayKept(s, t);
    case ExpiryJob(at, outcomes) =>
      ExpireStill(c, s, at, outcomes);
      RostersStayKept(s, t);
    case Shared(_, chatId, contact) => SharingStaysKept(s, chatId, contact);
    case NameDropped(_, raw) => NamingStaysKept(s, NormalizePhone(raw), "");
    case _ =>
      assert SameSlow(s, t);
      SameUsersStill(s, t);
      RostersStayKept(s, t);
  }

  lemma MessageStaysKept(s: State, t: State, q: Phone, intent: Intent)
    requires WellKept(s) && Registers.Registers(s, t, q, intent)
    ensures WellKept(t)
  {
    hide WellKept, Rosters, Names.Claim, Names.Release;
    if Rosters(s, t) {
      RostersStayKept(s, t);
    } else {
      NamingStaysKept(s, q, intent.raw);
    }
  }

  /** After every run, names and users are inverse partial bijections, each phone has at most one chat
      per channel, and every linked chat leads to a phone account. */
  lemma {:induction false} RegistriesStayWellKept(c: Config, run: seq<Input>, t: seq<State>, k: nat)
    requires Run(c, run, t) && k <= |run|
    ensures WellKept(t[k])
  {
    hide Step, FromPeople;
    if k > 0 {
      RegistriesStayWellKept(c, run, t, k - 1);
      assert Leads(c, run, t, k - 1);
      StepStaysKept(c, t[k - 1], run[k - 1]);
    }
  }

  lemma ChatAccountsResolve(links: Links, chat: string)
    requires forall i | 0 <= i < |chat| :: IsDigit(chat[i]) || chat[i] == '-'
    ensures Canonical(links, "tg:" + chat) == if (TELEGRAM, chat) in links then Some(links[(TELEGRAM, chat)]) else None
  {
    hide NormalizePhone, ChatId;
    NormalChatStays(chat);
    assert ("tg:" + chat)[3..] == chat && ("tg:" + chat)[..3] == "tg:";
    ChatIdKeeps(chat);
  }

  /** A shared contact that is accepted makes the chat speak for that phone, which has an account. */
  lemma SharedChatsResolve(s: State, chatId: string, contact: string)
    requires Share(s, chatId, contact).1
    ensures var t := Share(s, chatId, contact).0;
            && Canonical(t.links, ChatAccount(chatId)) == Some(NormalizePhone(contact))
            && NormalizePhone(contact) in t.users
  {
    hide NormalizePhone, ChatId, Canonical, Share, LinkTo;
    var phone := NormalizePhone(contact);
    SharedLinks(s, chatId, contact);
    LinkingKeepsOneToOne(s.links, TELEGRAM, ChatId(chatId), phone);
    ChatIdsAre(chatId);
    ChatAccountsResolve(LinkTo(s.links, TELEGRAM, ChatId(chatId), phone), ChatId(chatId));
  }
}
