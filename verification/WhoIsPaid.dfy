/** Whom a send pays (orchestrator/src/lib/contacts.ts, `resolvePayee`), said through the messages that
    made the payee known: saving a contact, claiming a name, giving a first name, or the number itself. */
module WhoIsPaid {
  import opened Text
  import opened Tables
  import opened Settings
  import opened Policy
  import opened Payees
  import opened Pipeline
  import opened Labels
  import opened Dialogue
  import Claims
  import Names

  // ----- a send and its confirmation -----

  /** If the caller confirms the open order and can pay it, q has the money: in its wallet, or in a claim of
      its own. */
  ghost predicate Arrives(c: Config, s: State, raw: string, q: Phone, amount: nat, at: nat, pin: string, env: Env)
    requires |c.tiers| == 3
  {
    var p, t := NormalizePhone(raw), Tell(c, s, at, raw, ConfirmWith(Some(pin)), env);
    CanPay(s, at, p, pin, amount, env.outcome) && (q in s.users || Claims.CanOpen(c, s, at, p)) ==>
      if q in s.users then t.Bal(q) == s.Bal(q) + amount
      else t.claims == s.claims + [Claim(p, q, amount, Held, at + c.claimMs, at)]
  }

  /** Whenever and however the caller confirms. */
  ghost predicate Reaches(c: Config, s: State, raw: string, q: Phone, amount: nat)
    requires |c.tiers| == 3
  {
    forall at, pin, env :: Arrives(c, s, raw, q, amount, at, pin, env)
  }

  /** The same for an address that is no wallet of the caller. */
  ghost predicate ArrivesAt(c: Config, s: State, raw: string, a: string, amount: nat, at: nat, pin: string, env: Env)
    requires |c.tiers| == 3
  {
    CanPay(s, at, NormalizePhone(raw), pin, amount, env.outcome) ==>
      Tell(c, s, at, raw, ConfirmWith(Some(pin)), env).BalanceAt(a) == s.BalanceAt(a) + amount
  }

  ghost predicate ReachesAddress(c: Config, s: State, raw: string, a: string, amount: nat)
    requires |c.tiers| == 3
  {
    forall at, pin, env :: ArrivesAt(c, s, raw, a, amount, at, pin, env)
  }

  /** The caller asks, from tables in which the next key is fresh, as it is in every run. */
  predicate Asks(c: Config, s: State, raw: string) {
    Caller(s, raw) && c.Ordinary(NormalizePhone(raw)) && s.nextKey !in s.idem
  }

  /** An order opened for payee r pays q. */
  lemma OrdersReach(c: Config, s: State, at: nat, raw: string, amount: nat, to: string, memo: string, env: Env, q: Phone)
    requires |c.tiers| == 3 && Asks(c, s, raw) && NormalizePhone(raw) != q
    requires var r := Resolve(c, s, NormalizePhone(raw), to);
             r.Some? && r.value.phone == Some(q)
             && (if q in s.users then r.value.address == Some(WalletOf(q)) && !r.value.pendingClaim else r.value.pendingClaim)
    ensures var t := Tell(c, s, at, raw, SendTo(amount, to, memo), env);
            Opened(s, t, NormalizePhone(raw)) ==> OrderFor(t, NormalizePhone(raw), q) && Reaches(c, t, raw, q, amount)
  {
    hide Resolve, SendGate, NormalizePhone, IsTelegram, Tell, WalletOf, CanPay, Claims.CanOpen;
    var p, t := NormalizePhone(raw), Tell(c, s, at, raw, SendTo(amount, to, memo), env);
    SendsOpenExactly(c, s, at, raw, amount, to, memo, env);
    if Opened(s, t, p) {
      forall now, pin, e ensures Arrives(c, t, raw, q, amount, now, pin, e) {
        if CanPay(t, now, p, pin, amount, e.outcome) && (q in t.users || Claims.CanOpen(c, t, now, p)) {
          ConfirmingReaches(c, t, now, raw, q, pin, e);
        }
      }
    }
  }

  lemma ConfirmingReachesAddress(c: Config, s: State, at: nat, raw: string, pin: string, env: Env)
    requires |c.tiers| == 3 && Caller(s, raw)
    requires var p := NormalizePhone(raw);
             && p in s.sessions && s.sessions[p].PSend? && s.sessions[p].toAddress.Some? && !s.sessions[p].pendingClaim
             && s.sessions[p].key !in s.idem && s.sessions[p].toAddress.value != WalletOf(p)
             && CanPay(s, at, p, pin, s.sessions[p].amount, env.outcome)
    ensures var m := s.sessions[NormalizePhone(raw)];
            Tell(c, s, at, raw, ConfirmWith(Some(pin)), env).BalanceAt(m.toAddress.value) == s.BalanceAt(m.toAddress.value) + m.amount
  {
    hide NormalizePhone, IsTelegram, PayFx, Tell, WalletOf;
    var p := NormalizePhone(raw);
    Confirmed(c, s, at, raw, pin, env);
    var u := s.ClearFails(p);
    assert u.balance == s.balance && u.Bal(p) == s.Bal(p);
    AddressIsPaid(c, u, at, p, s.sessions[p], env);
    assert u.BalanceAt(s.sessions[p].toAddress.value) == s.BalanceAt(s.sessions[p].toAddress.value);
  }

  lemma AddressOrdersReach(c: Config, s: State, at: nat, raw: string, amount: nat, to: string, memo: string, env: Env, a: string)
    requires |c.tiers| == 3 && Asks(c, s, raw) && a != WalletOf(NormalizePhone(raw))
    requires var r := Resolve(c, s, NormalizePhone(raw), to); r.Some? && r.value.address == Some(a) && !r.value.pendingClaim
    ensures var t := Tell(c, s, at, raw, SendTo(amount, to, memo), env);
            Opened(s, t, NormalizePhone(raw)) ==> ReachesAddress(c, t, raw, a, amount)
  {
    hide Resolve, SendGate, NormalizePhone, IsTelegram, Tell, WalletOf, CanPay;
    var p, t := NormalizePhone(raw), Tell(c, s, at, raw, SendTo(amount, to, memo), env);
    SendsOpenExactly(c, s, at, raw, amount, to, memo, env);
    if Opened(s, t, p) {
      forall now, pin, e ensures ArrivesAt(c, t, raw, a, amount, now, pin, e) {
        if CanPay(t, now, p, pin, amount, e.outcome) {
          ConfirmingReachesAddress(c, t, now, raw, pin, e);
        }
      }
    }
  }

  // ----- contacts -----

  /** What p saved under the name x, in any case. */
  function SavedAs(s: State, p: Phone, x: string): Contact {
    if (p, Lower(x)) in s.contacts then s.contacts[(p, Lower(x))] else Contact(None, None)
  }

  /** A number as it can be saved. */
  predicate IsNumber(target: string) {
    target != "" && (target[0] == '+' || forall i | 0 <= i < |target| :: IsDigit(target[i]))
  }

  lemma SavingANumber(c: Config, s: State, at: nat, raw: string, x: string, number: string, env: Env)
    requires |c.tiers| == 3 && Caller(s, raw) && IsNumber(number) && !c.isAddress(number)
    ensures var p, t := NormalizePhone(raw), Tell(c, s, at, raw, Save(x, number), env);
            && t == s.(contacts := t.contacts)
            && SavedAs(t, p, x) == Contact(Some(NormalizePhone(number)), SavedAs(s, p, x).address)
            && forall q, y | q != p || Lower(y) != Lower(x) :: SavedAs(t, q, y) == SavedAs(s, q, y)
  {
    hide NormalizePhone, IsTelegram, Lower, ServeMoneyFx, ServeOrdersFx, Tell;
    Served(c, s, at, raw, Save(x, number), env);
    assert number[0] == '+' ==> StartsWith(number, "+") by {
      assert number[0] == '+' ==> number[..1] == "+";
    }
    assert StartsWith(number, "+") ==> number[0] == "+"[0];
  }

  lemma SavingAnAddress(c: Config, s: State, at: nat, raw: string, x: string, a: string, env: Env)
    requires |c.tiers| == 3 && Caller(s, raw) && c.isAddress(a)
    ensures var p, t := NormalizePhone(raw), Tell(c, s, at, raw, Save(x, a), env);
            && t == s.(contacts := t.contacts)
            && SavedAs(t, p, x) == Contact(SavedAs(s, p, x).phone, Some(a))
            && forall q, y | q != p || Lower(y) != Lower(x) :: SavedAs(t, q, y) == SavedAs(s, q, y)
  {
    hide NormalizePhone, IsTelegram, Lower, ServeMoneyFx, ServeOrdersFx, Tell;
    Served(c, s, at, raw, Save(x, a), env);
  }

  lemma SameAsker(c: Config, s: State, t: State, raw: string)
    requires Asks(c, s, raw) && t == s.(contacts := t.contacts)
    ensures Asks(c, t, raw)
  {
  }

  /** After the caller saved a number under x, a send to x pays that number, unless an address is saved under x
      too or x is itself an address: the order names it, and its wallet or a claim for it gets the money. */
  lemma SavedNumbersArePaid(c: Config, s: State, raw: string, x: string, number: string, amount: nat, to: string, memo: string,
                            at: nat, later: nat, env: Env, env2: Env)
    requires |c.tiers| == 3 && Asks(c, s, raw) && IsNumber(number) && !c.isAddress(number)
    requires Lower(Trim(to)) == Lower(x) && !c.isAddress(Trim(to))
    requires var a := SavedAs(s, NormalizePhone(raw), x).address; a.Some? ==> !c.isAddress(a.value)
    requires NormalizePhone(number) != NormalizePhone(raw)
    ensures var t := Tell(c, s, at, raw, Save(x, number), env);
            var u := Tell(c, t, later, raw, SendTo(amount, to, memo), env2);
            Opened(t, u, NormalizePhone(raw)) ==>
              OrderFor(u, NormalizePhone(raw), NormalizePhone(number)) && Reaches(c, u, raw, NormalizePhone(number), amount)
  {
    hide NormalizePhone, Tell, Lower, Trim, Reaches, IsTelegram;
    var t := Tell(c, s, at, raw, Save(x, number), env);
    SavingANumber(c, s, at, raw, x, number, env);
    SameAsker(c, s, t, raw);
    NormalizingPhonesIsIdempotent(number);
    OrdersReach(c, t, later, raw, amount, to, memo, env2, NormalizePhone(number));
  }

  /** After the caller saved an address under x, a send to x pays that address, also if a number was saved
      under x before. */
  lemma SavedAddressesArePaid(c: Config, s: State, raw: string, x: string, a: string, amount: nat, to: string, memo: string,
                              at: nat, later: nat, env: Env, env2: Env)
    requires |c.tiers| == 3 && Asks(c, s, raw) && c.isAddress(a) && a != WalletOf(NormalizePhone(raw))
    requires Lower(Trim(to)) == Lower(x) && !c.isAddress(Trim(to))
    ensures var t := Tell(c, s, at, raw, Save(x, a), env);
            var u := Tell(c, t, later, raw, SendTo(amount, to, memo), env2);
            Opened(t, u, NormalizePhone(raw)) ==> ReachesAddress(c, u, raw, a, amount)
  {
    hide NormalizePhone, Tell, Lower, Trim, ReachesAddress, IsTelegram, WalletOf;
    var t := Tell(c, s, at, raw, Save(x, a), env);
    SavingAnAddress(c, s, at, raw, x, a, env);
    SameAsker(c, s, t, raw);
    AddressOrdersReach(c, t, later, raw, amount, to, memo, env2, a);
  }

  /** An address pays itself. */
  lemma AddressesPayThemselves(c: Config, s: State, raw: string, amount: nat, to: string, memo: string, at: nat, env: Env)
    requires |c.tiers| == 3 && Asks(c, s, raw) && c.isAddress(Trim(to)) && Trim(to) != WalletOf(NormalizePhone(raw))
    ensures var u := Tell(c, s, at, raw, SendTo(amount, to, memo), env);
            Opened(s, u, NormalizePhone(raw)) ==> ReachesAddress(c, u, raw, Trim(to), amount)
  {
    hide NormalizePhone, Tell, Trim, ReachesAddress, IsTelegram, WalletOf;
    AddressOrdersReach(c, s, at, raw, amount, to, memo, env, Trim(to));
  }

  // ----- numbers -----

  /** The text is nothing the caller has saved, and no address. */
  predicate NotSaved(c: Config, s: State, p: Phone, to: string) {
    && !c.isAddress(Trim(to))
    && var k := SavedAs(s, p, Trim(to)); k.phone.None? && (k.address.Some? ==> !c.isAddress(k.address.value))
  }

  /** The text is taken for a number: it starts with a plus sign, or has seven to fifteen digits. */
  predicate ReadsAsNumber(to: string) {
    var x := Trim(to);
    (x != "" && x[0] == '+') || (7 <= |Text.Digits(x)| <= 15 && !(|x| >= 2 && x[0] == '0' && x[1] == 'x'))
  }

  lemma ReadsAsNumberMeans(to: string)
    ensures ReadsAsNumber(to) <==> LooksLikePhone(Trim(to))
  {
    var x := Trim(to);
    if x != "" {
      assert x[..1] == [x[0]];
    }
    if |x| >= 2 {
      assert x[..2] == [x[0], x[1]];
    }
  }

  /** A number pays itself: its wallet if it has an account, else a claim for it. */
  lemma NumbersPayThemselves(c: Config, s: State, raw: string, amount: nat, to: string, memo: string, at: nat, env: Env)
    requires |c.tiers| == 3 && Asks(c, s, raw) && NotSaved(c, s, NormalizePhone(raw), to) && ReadsAsNumber(to)
    requires NormalizePhone(to) != NormalizePhone(raw)
    ensures var u := Tell(c, s, at, raw, SendTo(amount, to, memo), env);
            Opened(s, u, NormalizePhone(raw)) ==> OrderFor(u, NormalizePhone(raw), NormalizePhone(to)) && Reaches(c, u, raw, NormalizePhone(to), amount)
  {
    hide Tell, Lower, Reaches, IsTelegram, LooksLikePhone, ReadsAsNumber, NormalizePhone, Trim;
    ReadsAsNumberMeans(to);
    TrimmedIsSameNumber(to);
    OrdersReach(c, s, at, raw, amount, to, memo, env, NormalizePhone(to));
  }

  lemma {:induction false} LeftTrimmed(s: string)
    ensures TrimLeft(s) == "" || !IsSpace(TrimLeft(s)[0])
  {
    if s != "" && IsSpace(s[0]) {
      LeftTrimmed(s[1..]);
    }
  }

  lemma {:induction false} RightTrimmed(s: string)
    ensures TrimRight(s) == "" || (!IsSpace(TrimRight(s)[|TrimRight(s)| - 1]) && TrimRight(s)[0] == s[0])
    ensures |TrimRight(s)| <= |s|
  {
    if s != "" && IsSpace(s[|s| - 1]) {
      RightTrimmed(s[..|s| - 1]);
    }
  }

  lemma TrimmedIsSameNumber(to: string)
    ensures Trim(Trim(to)) == Trim(to) && NormalizePhone(Trim(to)) == NormalizePhone(to)
  {
    LeftTrimmed(to);
    RightTrimmed(TrimLeft(to));
    NoSpaceNoTrim(Trim(to));
  }

  // ----- .hotline names -----

  lemma ClaimingAName(c: Config, s: State, at: nat, raw: string, name: string, env: Env)
    requires |c.tiers| == 3 && Caller(s, raw)
    ensures Tell(c, s, at, raw, ClaimName(name), env) == Names.Claim(s, NormalizePhone(raw), name).Or(s)
  {
    hide NormalizePhone, IsTelegram, Names.Claim, ServeMoneyFx, ServeOrdersFx, Tell;
    Served(c, s, at, raw, ClaimName(name), env);
  }

  lemma NamesThatLead(s: State, q: Phone, name: string)
    requires Names.Claim(s, q, name).Some?
    ensures var t, n := Names.Claim(s, q, name).value, NormalizeLabel(name);
            && n in t.names && t.names[n] == q && q in t.users
            && t == s.(users := t.users, names := t.names) && t.users.Keys == s.users.Keys
            && |n| >= 2 && IsLetter(n[0]) && forall i | 0 <= i < |n| :: IsLabelChar(n[i])
    ensures forall p | p != q && p in s.users :: Names.Claim(s, q, name).value.users[p] == s.users[p]
    ensures q in s.users ==> Names.Claim(s, q, name).value.users[q].name == s.users[q].name
    ensures q in s.users ==> Names.Claim(s, q, name).value.users[q].pin == s.users[q].pin
  {
    var n := NormalizeLabel(name);
    NormalizedIsLabelled(name);
    NormalizingALabel(n);
    TrimRightIsPrefix(n);
  }

  /** Whom a label leads to, for any text with that label that the payer has not saved as a contact. */
  lemma LabelsLead(c: Config, t: State, p: Phone, to: string, q: Phone)
    requires NotSaved(c, t, p, to)
    requires var n := NormalizeLabel(Trim(to));
             && n in t.names && t.names[n] == q && q in t.users
             && |n| >= 2 && IsLetter(n[0]) && forall i | 0 <= i < |n| :: IsLabelChar(n[i])
    ensures !ReadsAsNumber(to) ==>
              Resolve(c, t, p, to).Some? && var r := Resolve(c, t, p, to).value; r.phone == Some(q) && r.address == Some(WalletOf(q)) && !r.pendingClaim
    ensures ReadsAsNumber(to) ==> Resolve(c, t, p, to).Some? && Resolve(c, t, p, to).value.phone == Some(NormalizePhone(to))
  {
    hide NormalizePhone, NormalizeLabel, LooksLikePhone, Lower, Trim, WalletOf, ReadsAsNumber;
    ReadsAsNumberMeans(to);
    TrimmedIsSameNumber(to);
  }

  /** After q claimed a label, a send to a text with that label pays q, if and only if the text is not taken for
      a number: a label with seven to fifteen digits in it pays the number that its digits make instead. */
  lemma ClaimedLabelsPayTheirOwner(c: Config, s: State, mine: string, name: string, raw: string, amount: nat, to: string, memo: string,
                                   at: nat, later: nat, env: Env, env2: Env)
    requires |c.tiers| == 3 && Caller(s, mine) && Asks(c, s, raw) && NormalizePhone(mine) != NormalizePhone(raw)
    requires Names.Claim(s, NormalizePhone(mine), name).Some? && NormalizeLabel(Trim(to)) == NormalizeLabel(name)
    requires NotSaved(c, s, NormalizePhone(raw), to)
    ensures var q, t := NormalizePhone(mine), Tell(c, s, at, mine, ClaimName(name), env);
            var u := Tell(c, t, later, raw, SendTo(amount, to, memo), env2);
            Opened(t, u, NormalizePhone(raw)) ==>
              && (OrderFor(u, NormalizePhone(raw), q) <==> !ReadsAsNumber(to) || NormalizePhone(to) == q)
              && (OrderFor(u, NormalizePhone(raw), q) ==> Reaches(c, u, raw, q, amount))
  {
    hide Tell, Lower, Reaches, IsTelegram, NormalizePhone, Trim, NormalizeLabel, ReadsAsNumber, Names.Claim, WalletOf, LooksLikePhone;
    var p, q := NormalizePhone(raw), NormalizePhone(mine);
    ClaimingAName(c, s, at, mine, name, env);
    NamesThatLead(s, q, name);
    var t := Names.Claim(s, q, name).value;
    StillAsking(c, s, t, raw, q);
    LabelsLead(c, t, p, to, q);
    SendsOpenExactly(c, t, later, raw, amount, to, memo, env2);
    if !ReadsAsNumber(to) {
      OrdersReach(c, t, later, raw, amount, to, memo, env2, q);
    } else if NormalizePhone(to) == q {
      NumbersPayThemselves(c, t, raw, amount, to, memo, later, env2);
    }
  }

  lemma StillAsking(c: Config, s: State, t: State, raw: string, q: Phone)
    requires Asks(c, s, raw) && NormalizePhone(raw) != q && t == s.(users := t.users, names := t.names)
    requires t.users.Keys == s.users.Keys && forall p | p != q && p in s.users :: t.users[p] == s.users[p]
    ensures Asks(c, t, raw)
  {
    hide NormalizePhone, IsTelegram;
    assert NormalizePhone(raw) in s.users.Keys;
  }

  lemma DropLetter(ch: char, d: string)
    requires !IsDigit(ch) && ch != '+'
    ensures Text.Digits([ch] + d) == Text.Digits(d) && DigitsAndPlus([ch] + d) == DigitsAndPlus(d)
  {
    assert ([ch] + d)[1..] == d;
  }

  lemma ItsDigits(n: string)
    requires n == "bob1234567"
    ensures Text.Digits(n) == "1234567" && DigitsAndPlus(n) == "1234567"
  {
    hide DigitsAndPlus, Text.Digits;
    var d := "1234567";
    DigitsOfDigits(d);
    DropLetter('b', d);
    DropLetter('o', "b" + d);
    DropLetter('b', "ob" + d);
    assert ['b'] + d == "b" + d && ['o'] + ("b" + d) == "ob" + d && ['b'] + ("ob" + d) == n;
  }

  lemma ItsLabel(n: string)
    requires n == "bob1234567"
    ensures NormalizeLabel(n) == n && ValidName(n)
  {
    hide NormalizeLabel, TrimDashesRight;
    NormalizingALabel(n);
    TrimmedStaysTrimmed(n);
  }

  lemma StartsElsewhere(s: string, w: string)
    requires s != "" && w != "" && s[0] != w[0]
    ensures !StartsWith(s, w)
  {
    if |w| <= |s| {
      assert s[..|w|][0] != w[0];
    }
  }

  lemma ItsNumber(n: string)
    requires n == "bob1234567"
    ensures ReadsAsNumber(n) && NormalizePhone(n) == "+1234567"
  {
    hide Trim, DigitsAndPlus, Text.Digits, Lower, StartsWith;
    ItsDigits(n);
    NoSpaceNoTrim(n);
    LowerStarts(n);
    StartsElsewhere(Lower(n), "tg:");
    StartsElsewhere(Lower(n), "telegram:");
    StartsElsewhere("1234567", "+");
    StartsElsewhere("1234567", "00");
  }

  lemma LowerStarts(n: string)
    requires n != "" && n[0] == 'b'
    ensures Lower(n) != "" && Lower(n)[0] == 'b'
  {
  }

  /** A label with digits that lead elsewhere: whoever claims "bob1234567" is not paid by that name. */
  lemma SomeLabelsPayANumber()
    ensures ReadsAsNumber("bob1234567") && NormalizePhone("bob1234567") == "+1234567"
    ensures ValidName("bob1234567") && NormalizeLabel("bob1234567") == "bob1234567"
  {
    hide NormalizeLabel, NormalizePhone, ReadsAsNumber, ValidName;
    ItsNumber("bob1234567");
    ItsLabel("bob1234567");
  }

  lemma {:induction false} DigitsOfDigits(d: string)
    requires forall i | 0 <= i < |d| :: IsDigit(d[i])
    ensures Text.Digits(d) == d && DigitsAndPlus(d) == d
  {
    if d != "" {
      DigitsOfDigits(d[1..]);
      assert d == [d[0]] + d[1..];
    }
  }

  // ----- first names -----

  /** q goes by this first name: it is set up, has a number, and its name in any case starts with that word. */
  predicate GoesBy(s: State, q: Phone, first: string) {
    && q in s.users && Onboarded(s.users[q]) && q != "" && q[0] == '+'
    && var name := Lower(s.users[q].name.value);
       |first| <= |name| && name[..|first|] == first && (|name| == |first| || IsSpace(name[|first|]))
  }

  lemma {:induction false} FirstTokenIs(s: string, w: string)
    requires forall i | 0 <= i < |w| :: !IsSpace(w[i])
    ensures FirstToken(s) == w <==> |w| <= |s| && s[..|w|] == w && (|s| == |w| || IsSpace(s[|w|]))
  {
    if s != "" && !IsSpace(s[0]) {
      if w != "" {
        FirstTokenIs(s[1..], w[1..]);
        if |w| <= |s| {
          assert s[..|w|] == [s[0]] + s[1..][..|w| - 1];
          assert w == [w[0]] + w[1..];
        }
      }
    }
  }

  lemma GoesByMeans(s: State, q: Phone, n: string)
    requires forall i | 0 <= i < |n| :: IsLabelChar(n[i])
    ensures GoesBy(s, q, n) <==> HasFirstName(s, q, n)
  {
    if q in s.users && Onboarded(s.users[q]) {
      FirstTokenIs(Lower(s.users[q].name.value), n);
    }
    assert q != "" ==> q[..1] == [q[0]];
  }

  /** A text that can be a first name: at least two label characters, and no label, number or contact. */
  predicate MaybeFirstName(c: Config, s: State, p: Phone, to: string) {
    var n := NormalizeLabel(Trim(to));
    && NotSaved(c, s, p, to) && !ReadsAsNumber(to)
    && |n| >= 2 && IsLetter(n[0]) && !(n in s.names && s.names[n] in s.users)
  }

  lemma NeedleIsTheLabel(n: string)
    requires Labelled(n)
    ensures FirstToken(Lower(Trim(n))) == n
  {
    NoSpaceNoTrim(n);
    LowerKeeps(n);
    FirstTokenIs(n, n);
  }

  /** A first name pays its only bearer, and nobody if it has two bearers or none. */
  lemma FirstNamesPayTheirOnlyBearer(c: Config, s: State, raw: string, amount: nat, to: string, memo: string, at: nat, env: Env, q: Phone)
    requires |c.tiers| == 3 && Asks(c, s, raw) && MaybeFirstName(c, s, NormalizePhone(raw), to)
    ensures var n := NormalizeLabel(Trim(to));
            var u := Tell(c, s, at, raw, SendTo(amount, to, memo), env);
            && (GoesBy(s, q, n) && (forall r | GoesBy(s, r, n) :: r == q) && q != NormalizePhone(raw) && Opened(s, u, NormalizePhone(raw)) ==>
                  OrderFor(u, NormalizePhone(raw), q) && Reaches(c, u, raw, q, amount))
            && (!(exists r :: GoesBy(s, r, n) && forall o | GoesBy(s, o, n) :: o == r) ==> !Opened(s, u, NormalizePhone(raw)))
  {
    hide Tell, Reaches, IsTelegram, NormalizePhone, Trim, NormalizeLabel, ReadsAsNumber, WalletOf, Lower, GoesBy, Asks;
    var p, n := NormalizePhone(raw), NormalizeLabel(Trim(to));
    FirstNamesLead(c, s, p, to, q);
    AskersAreCallers(c, s, raw);
    SendsOpenExactly(c, s, at, raw, amount, to, memo, env);
    if GoesBy(s, q, n) && (forall r | GoesBy(s, r, n) :: r == q) && q != p {
      BearersAreKnown(s, q, n);
      OrdersReach(c, s, at, raw, amount, to, memo, env, q);
    }
  }

  lemma AskersAreCallers(c: Config, s: State, raw: string)
    requires Asks(c, s, raw)
    ensures Caller(s, raw)
  {
  }

  lemma BearersAreKnown(s: State, q: Phone, n: string)
    requires GoesBy(s, q, n)
    ensures q in s.users
  {
  }

  lemma FoundAreKnown(s: State, n: string)
    requires ByFirstName(s, n).Some?
    ensures ByFirstName(s, n).value in s.users
  {
    hide Lower, Trim, FirstToken;
  }

  lemma TheOneIsFound(s: State, n: string, q: Phone)
    requires |n| >= 2 && FirstToken(Lower(Trim(n))) == n && q in s.users && HasFirstName(s, q, n)
    requires forall r | r in s.users && HasFirstName(s, r, n) :: r == q
    ensures ByFirstName(s, n) == Some(q)
  {
    hide Lower, Trim, FirstToken, HasFirstName;
    var hits := set p | p in s.users && HasFirstName(s, p, n);
    assert q in hits;
  }

  lemma FoundIsTheOne(s: State, n: string, r: Phone)
    requires FirstToken(Lower(Trim(n))) == n && ByFirstName(s, n) == Some(r)
    ensures r in s.users && HasFirstName(s, r, n) && forall o | o in s.users && HasFirstName(s, o, n) :: o == r
  {
    hide Lower, Trim, FirstToken, HasFirstName;
    var hits := set p | p in s.users && HasFirstName(s, p, n);
    forall o | o in s.users && HasFirstName(s, o, n) ensures o == r {
      assert o in hits;
    }
  }

  /** The lookup finds a bearer exactly if there is just one. */
  lemma FirstNameLookup(s: State, n: string, q: Phone)
    requires Labelled(n) && |n| >= 2
    ensures GoesBy(s, q, n) && (forall r | GoesBy(s, r, n) :: r == q) ==> ByFirstName(s, n) == Some(q)
    ensures !(exists r :: GoesBy(s, r, n) && forall o | GoesBy(s, o, n) :: o == r) ==> ByFirstName(s, n) == None
  {
    hide Lower, Trim, FirstToken, GoesBy, HasFirstName, ByFirstName;
    NeedleIsTheLabel(n);
    forall r ensures GoesBy(s, r, n) <==> HasFirstName(s, r, n) {
      GoesByMeans(s, r, n);
    }
    if GoesBy(s, q, n) && (forall r | GoesBy(s, r, n) :: r == q) {
      BearersAreKnown(s, q, n);
      TheOneIsFound(s, n, q);
    }
    if ByFirstName(s, n).Some? {
      var r := ByFirstName(s, n).value;
      FoundIsTheOne(s, n, r);
      forall o | GoesBy(s, o, n) ensures o == r {
        BearersAreKnown(s, o, n);
      }
    }
  }

  lemma FirstNamesLead(c: Config, s: State, p: Phone, to: string, q: Phone)
    requires MaybeFirstName(c, s, p, to)
    ensures var n := NormalizeLabel(Trim(to));
            && (GoesBy(s, q, n) && (forall r | GoesBy(s, r, n) :: r == q) ==>
                  Resolve(c, s, p, to).Some? && var r := Resolve(c, s, p, to).value; r.phone == Some(q) && r.address == Some(WalletOf(q)) && !r.pendingClaim)
            && (!(exists r :: GoesBy(s, r, n) && forall o | GoesBy(s, o, n) :: o == r) ==> Resolve(c, s, p, to).None?)
  {
    hide NormalizePhone, NormalizeLabel, LooksLikePhone, Lower, Trim, WalletOf, ReadsAsNumber, GoesBy, HasFirstName, ByFirstName;
    var n := NormalizeLabel(Trim(to));
    ReadsAsNumberMeans(to);
    NormalizedIsLabelled(Trim(to));
    FirstNameLookup(s, n, q);
    if ByFirstName(s, n).Some? {
      FoundAreKnown(s, n);
    }
  }

  // ----- nobody -----

  /** The text can be a label: it ends in ".hotline", or what is left of it starts with a letter. */
  predicate MaybeLabel(to: string) {
    EndsWith(Lower(Trim(to)), ".hotline") || (|NormalizeLabel(Trim(to))| >= 2 && IsLetter(NormalizeLabel(Trim(to))[0]))
  }

  /** Somebody has registered it, or one caller alone goes by it as a first name. */
  ghost predicate LeadsToSomebody(s: State, to: string) {
    var n := NormalizeLabel(Trim(to));
    || (n in s.names && s.names[n] in s.users)
    || (|n| >= 2 && exists q :: GoesBy(s, q, n) && forall r | GoesBy(s, r, n) :: r == q)
  }

  /** A payee is found exactly for an address, a saved contact, a number, and a label or first name that leads
      to somebody; every other text pays nobody. */
  lemma PayeesAreFoundExactly(c: Config, s: State, p: Phone, to: string)
    ensures Resolve(c, s, p, to).Some?
       <==> !NotSaved(c, s, p, to) || ReadsAsNumber(to) || (MaybeLabel(to) && LeadsToSomebody(s, to))
  {
    hide NormalizePhone, NormalizeLabel, LooksLikePhone, Lower, Trim, WalletOf, ReadsAsNumber, GoesBy, HasFirstName, ByFirstName, EndsWith;
    var n := NormalizeLabel(Trim(to));
    ReadsAsNumberMeans(to);
    NormalizedIsLabelled(Trim(to));
    SomebodyIsFound(s, n);
  }

  lemma SomebodyIsFound(s: State, n: string)
    requires Labelled(n)
    ensures ByFirstName(s, n).Some? <==> |n| >= 2 && exists q :: GoesBy(s, q, n) && forall r | GoesBy(s, r, n) :: r == q
    ensures ByFirstName(s, n).Some? ==> ByFirstName(s, n).value in s.users
  {
    hide GoesBy, HasFirstName, ByFirstName;
    if |n| < 2 {
      ShortNamesFindNobody(s, n);
    } else if exists q :: GoesBy(s, q, n) && forall r | GoesBy(s, r, n) :: r == q {
      var q :| GoesBy(s, q, n) && forall r | GoesBy(s, r, n) :: r == q;
      FirstNameLookup(s, n, q);
      BearersAreKnown(s, q, n);
    } else {
      FirstNameLookup(s, n, "");
    }
  }

  lemma ShortNamesFindNobody(s: State, n: string)
    requires Labelled(n) && |n| < 2
    ensures ByFirstName(s, n) == None
  {
    hide Lower, Trim, FirstToken, HasFirstName;
    NeedleIsTheLabel(n);
  }

  /** A text of none of these kinds is refused: no order is opened, and the tables stay as they were. */
  lemma UnknownTextsPayNobody(c: Config, s: State, raw: string, amount: nat, to: string, memo: string, at: nat, env: Env)
    requires |c.tiers| == 3 && Caller(s, raw)
    requires NotSaved(c, s, NormalizePhone(raw), to) && !ReadsAsNumber(to) && !(MaybeLabel(to) && LeadsToSomebody(s, to))
    ensures Tell(c, s, at, raw, SendTo(amount, to, memo), env) == s
  {
    hide Tell, Resolve, IsTelegram, NormalizePhone, NotSaved, ReadsAsNumber, MaybeLabel, LeadsToSomebody;
    PayeesAreFoundExactly(c, s, NormalizePhone(raw), to);
    Served(c, s, at, raw, SendTo(amount, to, memo), env);
  }

  // ----- one number, one account -----

  predicate AllDigits(d: string) {
    forall i | 0 <= i < |d| :: IsDigit(d[i])
  }

  lemma PlainNumber(lead: string, d: string)
    requires AllDigits(d) && (lead == "" || lead == "+" || lead == "1" || lead == "00" || lead == "+1") && lead + d != ""
    ensures Trim(lead + d) == lead + d && DigitsAndPlus(lead + d) == lead + d
    ensures !StartsWith(Lower(lead + d), "tg:") && !StartsWith(Lower(lead + d), "telegram:")
  {
    var x := lead + d;
    assert forall i | 0 <= i < |x| :: IsDigit(x[i]) || x[i] == '+';
    NoSpaceNoTrim(x);
    DigitsAndPlusOf(x);
    if |x| >= 3 {
      assert Lower(x)[..3][0] == LowerChar(x[0]);
    }
    if |x| >= 9 {
      assert Lower(x)[..9][0] == LowerChar(x[0]);
    }
  }

  lemma {:induction false} DigitsAndPlusOf(x: string)
    requires forall i | 0 <= i < |x| :: IsDigit(x[i]) || x[i] == '+'
    ensures DigitsAndPlus(x) == x
  {
    if x != "" {
      DigitsAndPlusOf(x[1..]);
      assert x == [x[0]] + x[1..];
    }
  }

  lemma AccountOf(lead: string, d: string)
    requires AllDigits(d) && (lead == "" || lead == "+" || lead == "1" || lead == "00" || lead == "+1") && lead + d != ""
    ensures var x := lead + d;
            NormalizePhone(x) == if x[0] == '+' then x else if |x| == 10 then "+1" + x else if |x| >= 2 && x[0] == '0' && x[1] == '0' then "+" + x[2..] else "+" + x
  {
    hide Trim, DigitsAndPlus, Lower;
    var x := lead + d;
    PlainNumber(lead, d);
    assert x[..1] == [x[0]];
    if |x| >= 2 {
      assert x[..2] == [x[0], x[1]];
    }
  }

  /** Ten digits, with or without the country code of the United States and its plus sign, are one account. */
  lemma TenDigitsAreOneAccount(d: string)
    requires AllDigits(d) && |d| == 10
    ensures NormalizePhone(d) == NormalizePhone("1" + d) == NormalizePhone("+1" + d) == "+1" + d
  {
    hide NormalizePhone;
    AccountOf("", d);
    AccountOf("1", d);
    AccountOf("+1", d);
    assert "" + d == d && "+" + ("1" + d) == "+1" + d;
  }

  /** The international prefix 00 is a plus sign, exactly unless the number then has ten digits in all. */
  lemma TheDoubleZeroIsAPlus(d: string)
    requires AllDigits(d) && d != ""
    ensures NormalizePhone("00" + d) == NormalizePhone("+" + d) <==> |d| != 8
  {
    hide NormalizePhone;
    AccountOf("00", d);
    AccountOf("+", d);
    var x := "00" + d;
    assert x[2..] == d && |x| == |d| + 2;
    assert |"+1" + x| == |d| + 4 && |"+" + d| == |d| + 1;
  }
}
