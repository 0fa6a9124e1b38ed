/** Chats and the phones they stand for (orchestrator/src/lib/channel.ts and its tables in
    orchestrator/src/lib/db.ts).  Sharing a contact is the only thing that ever deletes an account. */
module Channels {
  import opened Text
  import opened Tables
  import opened Payees

  const TELEGRAM := "telegram"

  /** `linkChannelAccount`: drops the phone's other chat on this channel, then upserts. */
  function LinkTo(links: Links, channel: string, chat: string, p: Phone): Links {
    (map k | k in links && !(k.0 == channel && links[k] == p) :: links[k])[(channel, chat) := p]
  }

  predicate CanReceiveSms(p: string) {
    StartsWith(p, "+") && 9 <= |p| <= 16 && forall i | 1 <= i < |p| :: IsDigit(p[i])
  }

  predicate HasHistory(s: State, p: Phone) {
    exists k | 0 <= k < |s.ledger| :: s.ledger[k].phone == p
  }

  function ChatAccount(chatId: string): Phone {
    "tg:" + ChatId(chatId)
  }

  /** `deleteProvisionalTelegramUser`. */
  function DropProvisional(s: State, p: Phone): State {
    if !IsTelegram(p) || p !in s.users || s.users[p].hotlineName.Some? || HasHistory(s, p) then s
    else
      s.(sessions := s.sessions - {p},
         contacts := map k | k in s.contacts && k.0 != p :: s.contacts[k],
         users := s.users - {p})
  }

  /** `linkTelegramToPhone`: a shared contact moves a chat onto a phone, or is refused. */
  function Share(s: State, chatId: string, contact: string): (State, bool) {
    var chat := ChatId(chatId);
    var phone := NormalizePhone(contact);
    var tg := ChatAccount(chatId);
    if chat == "" || !CanReceiveSms(phone) then (s, false)
    else if tg in s.users && s.users[tg].hotlineName.Some? && phone in s.users && s.users[phone].hotlineName.Some?
            && s.users[phone].hotlineName != s.users[tg].hotlineName then (s, false)
    else if tg in s.users && HasHistory(s, tg) then (s, false)
    else
      var t := s.WithUser(phone);
      var u := t.(links := LinkTo(t.links, TELEGRAM, chat, phone));
      (if tg in s.users then DropProvisional(u, tg) else u, true)
  }

  /** `resolveCanonicalAccount`. */
  function Canonical(links: Links, account: string): Option<Phone> {
    var a := NormalizePhone(account);
    if !IsTelegram(a) then Some(a)
    else
      var chat := ChatId(a[3..]);
      if (TELEGRAM, chat) in links then Some(links[(TELEGRAM, chat)]) else None
  }

  method Link(desk: Desk, channel: string, chat: string, p: Phone)
    modifies desk
    ensures desk.Now() == old(desk.Now()).(links := LinkTo(old(desk.links), channel, chat, p))
  {
    desk.links := map k | k in desk.links && !(k.0 == channel && desk.links[k] == p) :: desk.links[k];
    desk.links := desk.links[(channel, chat) := p];
  }

  method DeleteProvisional(desk: Desk, p: Phone)
    modifies desk
    ensures desk.Now() == DropProvisional(old(desk.Now()), p)
  {
    if !IsTelegram(p) || p !in desk.users || desk.users[p].hotlineName.Some? || HasHistory(desk.Now(), p) {
      return;
    }
    desk.sessions := desk.sessions - {p};
    desk.contacts := map k | k in desk.contacts && k.0 != p :: desk.contacts[k];
    desk.users := desk.users - {p};
  }

  method LinkTelegramToPhone(desk: Desk, chatId: string, contact: string) returns (ok: bool)
    modifies desk
    ensures (desk.Now(), ok) == Share(old(desk.Now()), chatId, contact)
  {
    var chat := ChatId(chatId);
    var phone := NormalizePhone(contact);
    if chat == "" || !CanReceiveSms(phone) {
      return false;
    }
    var tg := ChatAccount(chatId);
    var known := tg in desk.users;
    if known && desk.users[tg].hotlineName.Some? {
      if phone in desk.users && desk.users[phone].hotlineName.Some?
         && desk.users[phone].hotlineName != desk.users[tg].hotlineName {
        return false;
      }
    }
    if known && HasHistory(desk.Now(), tg) {
      return false;
    }
    desk.EnsureWallet(phone);
    Link(desk, TELEGRAM, chat, phone);
    if known {
      DeleteProvisional(desk, tg);
    }
    ok := true;
  }

  // ----- what sharing can do -----

  /** What dropping a provisional chat account can do. */
  lemma DroppingOnlyRemovesTheChat(s: State, p: Phone)
    ensures var t := DropProvisional(s, p);
            || t == s
            || (p in s.users && IsTelegram(p) && s.users[p].hotlineName.None? && !HasHistory(s, p)
                && t == s.(sessions := s.sessions - {p}, contacts := t.contacts, users := s.users - {p}))
  {
  }

  lemma SharingCases(s: State, chatId: string, contact: string)
    ensures var (t, ok) := Share(s, chatId, contact);
            var phone, tg := NormalizePhone(contact), ChatAccount(chatId);
            if ok then
              var u := s.WithUser(phone);
              var v := u.(links := LinkTo(u.links, TELEGRAM, ChatId(chatId), phone));
              CanReceiveSms(phone) && (t == v || (tg in s.users && t == DropProvisional(v, tg)))
            else t == s
  {
    hide NormalizePhone, ChatId, DropProvisional, LinkTo, HasHistory;
  }

  lemma PhonesAreNoChats(p: string)
    requires CanReceiveSms(p)
    ensures !IsTelegram(p)
  {
    assert p[0] == '+';
  }

  /** p kept its account and its slot. */
  predicate Untouched(s: State, t: State, p: Phone) {
    && (p in s.users <==> p in t.users) && (p in s.users ==> t.users[p] == s.users[p])
    && (p in s.sessions <==> p in t.sessions) && (p in s.sessions ==> t.sessions[p] == s.sessions[p])
  }

  /** p was a chat account with neither a name nor a ledger row, and is gone. */
  predicate Dropped(s: State, t: State, p: Phone) {
    && IsTelegram(p) && p in s.users && s.users[p].hotlineName.None? && !HasHistory(s, p)
    && p !in t.users && p !in t.sessions
  }

  /** Sharing registers at most one phone and removes at most the account of the chat; money, ledger,
      claims, rules, locks, orders, names and keys stay as they are. */
  ghost predicate Shares(s: State, t: State, phone: Phone, tg: Phone) {
    && t == s.(users := t.users, sessions := t.sessions, contacts := t.contacts, links := t.links)
    && forall p :: || Untouched(s, t, p)
                   || (p == tg && Dropped(s, t, p))
                   || (p == phone && Untouched(s.WithUser(phone), t, p))
  }

  lemma SharingShares(s: State, chatId: string, contact: string)
    ensures Shares(s, Share(s, chatId, contact).0, NormalizePhone(contact), ChatAccount(chatId))
  {
    hide NormalizePhone, ChatId, Share, LinkTo, DropProvisional, CanReceiveSms, HasHistory, IsTelegram;
    var phone, tg := NormalizePhone(contact), ChatAccount(chatId);
    SharingCases(s, chatId, contact);
    if Share(s, chatId, contact).1 {
      var u := s.WithUser(phone);
      var v := u.(links := LinkTo(u.links, TELEGRAM, ChatId(chatId), phone));
      PhonesAreNoChats(phone);
      LinkedShares(s, v, phone, tg);
      if Share(s, chatId, contact).0 != v {
        DroppedShares(s, v, phone, tg);
      }
    }
  }

  lemma LinkedShares(s: State, v: State, phone: Phone, tg: Phone)
    requires v == s.WithUser(phone).(links := v.links)
    ensures Shares(s, v, phone, tg)
  {
  }

  lemma DroppedShares(s: State, v: State, phone: Phone, tg: Phone)
    requires v == s.WithUser(phone).(links := v.links) && !IsTelegram(phone)
    ensures Shares(s, DropProvisional(v, tg), phone, tg)
  {
    hide HasHistory, IsTelegram, DropProvisional, Untouched, Dropped;
    var t := DropProvisional(v, tg);
    DroppingOnlyRemovesTheChat(v, tg);
    if t == v {
      LinkedShares(s, v, phone, tg);
    } else {
      forall p ensures Untouched(s, t, p) || (p == tg && Dropped(s, t, p)) || (p == phone && Untouched(s.WithUser(phone), t, p)) {
        SameHistory(s, v, tg);
        OneDropped(s, s.WithUser(phone), t, phone, tg, p);
      }
    }
  }

  lemma OneDropped(s: State, u: State, t: State, phone: Phone, tg: Phone, p: Phone)
    requires u == s.WithUser(phone) && IsTelegram(tg) && !IsTelegram(phone)
    requires tg in u.users && u.users[tg].hotlineName.None? && !HasHistory(s, tg)
    requires t.sessions == u.sessions - {tg} && t.users == u.users - {tg}
    ensures Untouched(s, t, p) || (p == tg && Dropped(s, t, p)) || (p == phone && Untouched(u, t, p))
  {
    hide HasHistory, IsTelegram, Untouched, Dropped;
    if p == tg {
      TheChatIsDropped(s, t, tg);
    } else {
      OthersKeepTheirs(u, t, tg, p);
      if p != phone {
        OthersAreNotRegistered(s, u, t, phone, p);
      }
    }
  }

  lemma TheChatIsDropped(s: State, t: State, tg: Phone)
    requires IsTelegram(tg) && tg in s.users && s.users[tg].hotlineName.None? && !HasHistory(s, tg)
    requires tg !in t.sessions && tg !in t.users
    ensures Dropped(s, t, tg)
  {
    hide HasHistory, IsTelegram;
  }

  lemma OthersKeepTheirs(u: State, t: State, tg: Phone, p: Phone)
    requires t.sessions == u.sessions - {tg} && t.users == u.users - {tg} && p != tg
    ensures Untouched(u, t, p)
  {
  }

  lemma OthersAreNotRegistered(s: State, u: State, t: State, phone: Phone, p: Phone)
    requires u == s.WithUser(phone) && p != phone && Untouched(u, t, p)
    ensures Untouched(s, t, p)
  {
  }

  lemma SameHistory(s: State, t: State, p: Phone)
    requires s.ledger == t.ledger
    ensures HasHistory(s, p) == HasHistory(t, p)
  {
  }

  /** Sharing a contact never deletes an account that has a ledger history or a name, and never
      changes another phone's row, money or claims. */
  lemma SharingKeepsHistory(s: State, chatId: string, contact: string, p: Phone)
    requires p in s.users && (!IsTelegram(p) || HasHistory(s, p) || s.users[p].hotlineName.Some?)
    ensures var t := Share(s, chatId, contact).0;
            && p in t.users && t.users[p] == s.users[p]
            && t.balance == s.balance && t.ledger == s.ledger && t.claims == s.claims
  {
    hide Share, HasHistory, NormalizePhone, ChatAccount;
    SharingShares(s, chatId, contact);
    var t := Share(s, chatId, contact).0;
    assert Untouched(s, t, p) || Dropped(s, t, p) || Untouched(s.WithUser(p), t, p);
  }
}
