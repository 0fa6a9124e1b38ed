/** Phone numbers, .hotline names and whom a spoken payee means: `normalizePhone`
    (orchestrator/src/lib/db.ts), `normalizeHotlineLabel` (orchestrator/src/lib/hotlinens.ts) and
    `resolvePayee` (orchestrator/src/lib/contacts.ts). */
module Payees {
  import opened Text
  import opened Tables
  import opened Settings

  // ----- phone numbers -----

  predicate IsTelegram(p: string) {
    StartsWith(p, "tg:")
  }

  function ChatId(s: string): string {
    if s == "" then ""
    else (if IsDigit(s[0]) || s[0] == '-' then [s[0]] else []) + ChatId(s[1..])
  }

  /** `normalizePhone`: the account key of a raw number. */
  function NormalizePhone(phone: string): string {
    var raw := Trim(phone);
    if StartsWith(Lower(raw), "tg:") then "tg:" + ChatId(raw[3..])
    else if StartsWith(Lower(raw), "telegram:") then "tg:" + ChatId(raw[9..])
    else
      var d := DigitsAndPlus(raw);
      if StartsWith(d, "+") then d
      else if |d| == 10 then "+1" + d
      else if StartsWith(d, "00") then "+" + d[2..]
      else "+" + d
  }

  // ----- .hotline names -----

  predicate IsLabelChar(ch: char) {
    IsLetter(ch) || IsDigit(ch) || ch == '-'
  }

  function LabelChars(s: string): string {
    if s == "" then ""
    else (if IsLabelChar(s[0]) then [s[0]] else []) + LabelChars(s[1..])
  }

  function DropSuffix(s: string, suffix: string): string {
    if EndsWith(s, suffix) then s[..|s| - |suffix|] else s
  }

  function TrimDashesLeft(s: string): string {
    if s != "" && s[0] == '-' then TrimDashesLeft(s[1..]) else s
  }

  function TrimDashesRight(s: string): string {
    if s != "" && s[|s| - 1] == '-' then TrimDashesRight(s[..|s| - 1]) else s
  }

  /** `normalizeHotlineLabel`. */
  function NormalizeLabel(raw: string): string {
    var s := TrimDashesRight(TrimDashesLeft(LabelChars(DropSuffix(Lower(Trim(raw)), ".hotline"))));
    s[..Min(32, |s|)]
  }

  const RESERVED := {"admin", "hotline", "help", "support", "root", "system", "null", "undefined", "api", "www"}

  /** `isValidHotlineName`: the test looks at the normalized form of its argument. */
  predicate ValidName(name: string) {
    var n := NormalizeLabel(name);
    2 <= |n| <= 32 && IsLetter(n[0]) && (forall i | 0 <= i < |n| :: IsLabelChar(n[i])) && n !in RESERVED
  }

  /** `displayHotline`. */
  function Display(name: string): string {
    NormalizeLabel(name) + ".hotline"
  }

  // ----- payees -----

  /** A resolved payee.  Without an address the money waits in escrow for `phone`. */
  datatype Payee = Payee(title: string, address: Option<string>, phone: Option<Phone>, pendingClaim: bool)

  predicate LooksLikePhone(raw: string) {
    StartsWith(raw, "+") || (7 <= |Digits(raw)| <= 15 && !StartsWith(raw, "0x"))
  }

  predicate LooksLikeHotline(raw: string) {
    EndsWith(Lower(raw), ".hotline")
    || (var n := NormalizeLabel(raw);
        |n| >= 2 && IsLetter(n[0]) && (forall i | 0 <= i < |n| :: IsLabelChar(n[i])) && !LooksLikePhone(raw))
  }

  function FirstToken(s: string): string {
    if s == "" || IsSpace(s[0]) then "" else [s[0]] + FirstToken(s[1..])
  }

  predicate HasFirstName(s: State, p: Phone, needle: string) {
    p in s.users && Onboarded(s.users[p]) && StartsWith(p, "+") && FirstToken(Lower(s.users[p].name.value)) == needle
  }

  /** `findUniqueUserByFirstName`: the only onboarded phone with that first name. */
  function ByFirstName(s: State, raw: string): Option<Phone> {
    var needle := FirstToken(Lower(Trim(raw)));
    var hits := set p | p in s.users && HasFirstName(s, p, needle);
    if |needle| >= 2 && exists p | p in hits :: forall q | q in hits :: q == p then
      var p :| p in hits && forall q | q in hits :: q == p;
      Some(p)
    else None
  }

  /** A phone payee: its wallet when the phone has one, else a claim held in escrow. */
  function PhonePayee(s: State, title: string, phone: Phone): Payee {
    if phone in s.users then Payee(title, Some(WalletOf(phone)), Some(phone), false)
    else Payee(title, None, Some(phone), true)
  }

  function NamedPayee(s: State, p: Phone, raw: string): Payee
    requires p in s.users
  {
    var u := s.users[p];
    var title := if u.hotlineName.Some? then Display(u.hotlineName.value) else u.name.Or(raw);
    Payee(title, Some(WalletOf(p)), Some(p), false)
  }

  /** `resolvePayee`: address, then contact, then phone number, then .hotline name, then first name. */
  function Resolve(c: Config, s: State, from: Phone, to: string): Option<Payee> {
    var raw := Trim(to);
    var contact := if (from, Lower(raw)) in s.contacts then s.contacts[(from, Lower(raw))] else Contact(None, None);
    if c.isAddress(raw) then Some(Payee(raw, Some(raw), None, false))
    else if contact.address.Some? && c.isAddress(contact.address.value) then
      Some(Payee(Lower(raw), contact.address, None, false))
    else if contact.phone.Some? then Some(PhonePayee(s, Lower(raw), NormalizePhone(contact.phone.value)))
    else if LooksLikePhone(raw) then Some(PhonePayee(s, NormalizePhone(raw), NormalizePhone(raw)))
    else if LooksLikeHotline(raw) then
      var n := NormalizeLabel(raw);
      if n in s.names && s.names[n] in s.users then
        var p := s.names[n];
        var title := Display(s.users[p].hotlineName.Or(raw));
        Some(Payee(title, Some(WalletOf(p)), Some(p), false))
      else
        match ByFirstName(s, n)
        case Some(p) => if p in s.users then Some(NamedPayee(s, p, raw)) else None
        case None => None
    else None
  }

  /** The shape of every payee: an address or a waiting phone, and a phone's own wallet. */
  lemma ResolvedShape(c: Config, s: State, from: Phone, to: string)
    requires Resolve(c, s, from, to).Some?
    ensures var q := Resolve(c, s, from, to).value;
            && (q.pendingClaim <==> q.address.None?)
            && (q.pendingClaim ==> q.phone.Some?)
            && (q.phone.Some? && !q.pendingClaim ==> q.address == Some(WalletOf(q.phone.value)) && q.phone.value in s.users)
  {
  }
}
