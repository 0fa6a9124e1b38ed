/** Printing a payment as text and reading it back: the text the worker
    (orchestrator/src/lib/workers.ts) and the agent delivery (orchestrator/src/lib/x402.ts) build,
    through the whole message grammar (orchestrator/src/lib/intent.ts). */
module SendText {
  import opened Text
  import opened Regex
  import opened Grammar
  import opened Labels

  // ----- decimal amounts in micro-USDC -----

  predicate AllDigits(s: string) {
    forall k | 0 <= k < |s| :: IsDigit(s[k])
  }

  /** Digits, or digits, a point and digits: a number printed without an exponent. */
  predicate IsDecimal(a: string) {
    exists k: nat | 0 < k <= |a| :: AllDigits(a[..k]) && (k == |a| || (a[k] == '.' && k + 1 < |a| && AllDigits(a[k + 1..])))
  }

  function DigitOf(ch: char): nat
    requires IsDigit(ch)
  {
    ch as int - '0' as int
  }

  function NatOf(s: string): nat
    requires AllDigits(s)
  {
    if s == "" then 0 else NatOf(s[..|s| - 1]) * 10 + DigitOf(s[|s| - 1])
  }

  function NatText(n: nat): (s: string)
    ensures s != "" && AllDigits(s)
  {
    if n < 10 then [DigitChar(n)] else NatText(n / 10) + [DigitChar(n % 10)]
  }

  /** The last width digits of n, padded with zeros. */
  function Padded(n: nat, width: nat): (s: string)
    ensures |s| == width && AllDigits(s)
  {
    if width == 0 then "" else Padded(n / 10, width - 1) + [DigitChar(n % 10)]
  }

  function DropZeros(s: string): (t: string)
    ensures |t| <= |s| && t == s[..|t|] && (t != "" ==> t[|t| - 1] != '0')
    ensures forall k | |t| <= k < |s| :: s[k] == '0'
  {
    if s != "" && s[|s| - 1] == '0' then DropZeros(s[..|s| - 1]) else s
  }

  function Zeros(n: nat): string {
    seq(n, _ => '0')
  }

  /** How JavaScript prints an amount of whole micro-USDC: no trailing zeros, no bare point. */
  function AmountText(micro: nat): string {
    var cents := DropZeros(Padded(micro % 1_000_000, 6));
    NatText(micro / 1_000_000) + if cents == "" then "" else "." + cents
  }

  function Point(a: string): (k: nat)
    ensures k <= |a| && (k < |a| ==> a[k] == '.') && forall i | 0 <= i < k :: a[i] != '.'
  {
    if a == "" || a[0] == '.' then 0 else 1 + Point(a[1..])
  }

  /** `Number(text)` in micro-USDC, for texts with at most six decimals. */
  function Micro(a: string): Option<nat> {
    var k := Point(a);
    var whole := a[..k];
    var cents := if k < |a| then a[k + 1..] else "";
    if AllDigits(whole) && AllDigits(cents) && |cents| <= 6 then
      assert AllDigits(cents + Zeros(6 - |cents|));
      Some(NatOf(whole) * 1_000_000 + NatOf(cents + Zeros(6 - |cents|)))
    else None
  }

  lemma {:induction false} NatTextReads(n: nat)
    ensures NatOf(NatText(n)) == n
  {
    if n >= 10 {
      NatTextReads(n / 10);
      var s := NatText(n);
      assert s[..|s| - 1] == NatText(n / 10);
    }
  }

  function Power(width: nat): nat {
    if width == 0 then 1 else Power(width - 1) * 10
  }

  lemma {:induction false} PaddedReads(n: nat, width: nat)
    requires n < Power(width)
    ensures NatOf(Padded(n, width)) == n
  {
    if width > 0 {
      PaddedReads(n / 10, width - 1);
      var s := Padded(n, width);
      assert s[..|s| - 1] == Padded(n / 10, width - 1);
    }
  }

  lemma DroppedZerosComeBack(s: string)
    requires AllDigits(s)
    ensures DropZeros(s) + Zeros(|s| - |DropZeros(s)|) == s
  {
  }

  lemma PointOf(whole: string, cents: string)
    requires AllDigits(whole) && AllDigits(cents)
    ensures Point(whole) == |whole| && Point(whole + "." + cents) == |whole|
  {
    assert forall i | 0 <= i < |whole| :: whole[i] != '.';
    var a := whole + "." + cents;
    assert forall i | 0 <= i < |whole| :: a[i] == whole[i];
    assert a[|whole|] == '.';
  }

  lemma DigitsAndZeros(cents: string)
    requires AllDigits(cents) && |cents| <= 6
    ensures AllDigits(cents + Zeros(6 - |cents|))
  {
  }

  lemma MicroOfWhole(whole: string)
    requires AllDigits(whole)
    ensures Micro(whole) == Some(NatOf(whole) * 1_000_000 + NatOf("" + Zeros(6)))
  {
    hide NatOf, Point;
    PointOf(whole, "");
    DigitsAndZeros("");
    assert whole[..|whole|] == whole;
  }

  lemma MicroOfParts(whole: string, cents: string)
    requires AllDigits(whole) && AllDigits(cents) && |cents| <= 6
    ensures AllDigits(cents + Zeros(6 - |cents|))
    ensures Micro(whole + "." + cents) == Some(NatOf(whole) * 1_000_000 + NatOf(cents + Zeros(6 - |cents|)))
  {
    hide NatOf, Point, AllDigits;
    var a := whole + "." + cents;
    PointOf(whole, cents);
    DigitsAndZeros(cents);
    assert a[..|whole|] == whole && a[|whole| + 1..] == cents;
  }

  lemma MicroOf(whole: string, cents: string)
    requires AllDigits(whole) && AllDigits(cents) && |cents| <= 6
    ensures AllDigits(cents + Zeros(6 - |cents|))
    ensures Micro(whole + if cents == "" then "" else "." + cents)
         == Some(NatOf(whole) * 1_000_000 + NatOf(cents + Zeros(6 - |cents|)))
  {
    hide NatOf, Micro;
    MicroOfParts(whole, cents);
    if cents == "" {
      MicroOfWhole(whole);
      assert whole + "" == whole;
    } else {
      assert whole + ("." + cents) == whole + "." + cents;
    }
  }

  lemma AmountIsDecimal(micro: nat)
    ensures IsDecimal(AmountText(micro))
  {
    var whole, cents := NatText(micro / 1_000_000), DropZeros(Padded(micro % 1_000_000, 6));
    var a := AmountText(micro);
    assert a[..|whole|] == whole;
    if cents != "" {
      assert a[|whole| + 1..] == cents;
    }
  }

  /** Printing an amount and reading it gives the amount back, to the last micro-dollar. */
  lemma AmountsReadBack(micro: nat)
    ensures IsDecimal(AmountText(micro)) && Micro(AmountText(micro)) == Some(micro)
  {
    hide NatOf, Micro, IsDecimal, Padded, NatText, DropZeros;
    var whole, six := NatText(micro / 1_000_000), Padded(micro % 1_000_000, 6);
    var cents := DropZeros(six);
    AmountIsDecimal(micro);
    SixDigits(micro % 1_000_000);
    NatTextReads(micro / 1_000_000);
    DroppedZerosComeBack(six);
    MicroOf(whole, cents);
    assert cents + Zeros(6 - |cents|) == six;
  }

  lemma SixDigits(n: nat)
    requires n < 1_000_000
    ensures NatOf(Padded(n, 6)) == n
  {
    assert Power(6) == 1_000_000 by {
      assert Power(3) == 1_000;
    }
    PaddedReads(n, 6);
  }

  // ----- the text -----

  function PayText(amount: string, target: string): string {
    "send " + amount + " usdt to " + target
  }

  /** A phone number as the worker writes it. */
  predicate IsTarget(t: string) {
    |t| >= 2 && t[0] == '+' && AllDigits(t[1..])
  }

  // ----- no earlier test takes it -----

  const ALPHABET := {'s', 'e', 'n', 'd', ' ', 'u', 't', 'o', '.', '+', '0', '1', '2', '3', '4', '5', '6', '7', '8', '9'}

  lemma DigitsAreCommon(ch: char)
    requires IsDigit(ch)
    ensures LowerChar(ch) == ch && ch in ALPHABET
  {
  }

  lemma PayTextIsCommon(a: string, t: string)
    requires IsDecimal(a) && IsTarget(t)
    ensures Within(PayText(a, t), ALPHABET)
  {
    var k: nat :| 0 < k <= |a| && AllDigits(a[..k]) && (k == |a| || (a[k] == '.' && k + 1 < |a| && AllDigits(a[k + 1..])));
    assert Within(a, ALPHABET) by {
      forall i | 0 <= i < |a| ensures LowerChar(a[i]) in ALPHABET {
        if i < k {
          assert a[..k][i] == a[i];
          DigitsAreCommon(a[i]);
        } else if i > k {
          assert a[k + 1..][i - k - 1] == a[i];
          DigitsAreCommon(a[i]);
        }
      }
    }
    assert Within(t, ALPHABET) by {
      forall i | 0 <= i < |t| ensures LowerChar(t[i]) in ALPHABET {
        if i > 0 {
          assert t[1..][i - 1] == t[i];
          DigitsAreCommon(t[i]);
        }
      }
    }
    assert Within("send ", ALPHABET) && Within(" usdt to ", ALPHABET);
    WithinPlus("send ", a, ALPHABET);
    WithinPlus("send " + a, " usdt to ", ALPHABET);
    WithinPlus("send " + a + " usdt to ", t, ALPHABET);
  }

  lemma NoWordAtStart(t: string)
    requires Within(t, ALPHABET) && t != "" && t[0] != 'n' && t[0] != 'N'
    ensures Ends(CANCEL[1], t, 0) == []
  {
    RareAt("cancel", 0, ALPHABET);
    RareAt("stop", 3, ALPHABET);
    RareNeverMatches(Lits("cancel"), t, 0, ALPHABET);
    RareNeverMatches(Lits("stop"), t, 0, ALPHABET);
    if 2 <= |t| {
      assert Lower(t[0..2])[0] == LowerChar(t[0]);
    }
    assert Words(["no", "stop"]) == Or(Lits("no"), Lits("stop"));
  }

  /** "no" would be a common word, but the cancel test is anchored and the text starts with another letter. */
  lemma NoCancel(t: string)
    requires Within(t, ALPHABET) && t != "" && t[0] != 'n' && t[0] != 'N'
    ensures !Has(CANCEL, t)
  {
    hide All, Words, Within;
    if Has(CANCEL, t) {
      var i: nat :| i <= |t| && Ends(All(CANCEL), t, i) != [];
      var at := PathOf(CANCEL, t, i, Ends(All(CANCEL), t, i)[0]);
      assert at[1] in Ends(CANCEL[0], t, at[0]);
      assert at[2] in Ends(CANCEL[1], t, at[1]);
      NoWordAtStart(t);
      assert false;
    }
  }

  lemma NoRecover(t: string)
    requires Within(t, ALPHABET)
    ensures !Has(RECOVER, t)
  {
    hide Within;
    RareAt("recover", 0, ALPHABET);
    RareAt("forgot", 0, ALPHABET);
    PartNeedsRare([Lits("forgot"), SPACE, Lits("pin")], 0, ALPHABET);
    ChoicesNeedRare([Cat(Lits("recover"), Opt(Cat(SPACE, Lits("pin")))), All([Lits("forgot"), SPACE, Lits("pin")])], ALPHABET);
    NotTaken(RECOVER, 1, t, ALPHABET);
  }

  lemma NoVerify(t: string)
    requires Within(t, ALPHABET)
    ensures !Has(VERIFY, t)
  {
    hide Within;
    RareAt("verify", 0, ALPHABET);
    RareAt("id", 0, ALPHABET);
    NotTaken(VERIFY, 1, t, ALPHABET);
  }

  lemma NoAccountTest(t: string)
    requires Within(t, ALPHABET)
    ensures AccountTest(t) == None
  {
    hide Within, NeedsRare, Has, Words, All, AnyOf;
    NoAttest(t, ALPHABET);
    NoWords(IDENTITY, 1, ["identity", "tier", "limits"], [0, 1, 0], t, ALPHABET);
    NoReportSim(t, ALPHABET);
    NoCallback(t, ALPHABET);
    NoRecover(t);
    NoWord(RECOVER_CONFIRM, 1, "recover", 0, t, ALPHABET);
    NoWord(CHANGE_PIN, 1, "change", 0, t, ALPHABET);
    NoWords(CLAIM, 1, ["claim", "name"], [0, 1], t, ALPHABET);
    NoWords(WHOIS, 1, ["whois", "lookup", "resolve"], [0, 0, 0], t, ALPHABET);
    NoVerify(t);
    NoWords(JOIN, 0, ["join", "register", "signup", "sign up"], [0, 0, 1, 1], t, ALPHABET);
    NoWord(SAVE, 0, "save", 1, t, ALPHABET);
    NoWords(SWAP, 0, ["swap", "exchange", "convert", "change"], [1, 1, 0, 0], t, ALPHABET);
    NoWords(SWAP_SHORT, 0, ["swap", "exchange", "convert", "change"], [1, 1, 0, 0], t, ALPHABET);
  }

  lemma NoCommonWords(t: string)
    requires Within(t, ALPHABET)
    ensures !Has(CONFIRM, t) && !Has(BUY, t) && !Has(NEVER_SEND, t)
  {
    hide Within, NeedsRare, Has, Words, All, AnyOf;
    NoWords(CONFIRM, 1, ["confirm", "yes", "y", "ok", "okay"], [0, 0, 0, 1, 1], t, ALPHABET);
    NoWords(BUY, 1, ["buy", "order", "purchase"], [0, 1, 0], t, ALPHABET);
    NoWord(NEVER_SEND, 1, "never", 2, t, ALPHABET);
  }

  lemma NoFirstTests(t: string)
    requires Within(t, ALPHABET) && t != "" && t[0] != 'n' && t[0] != 'N'
    ensures EarlyTest(t) == None && MoneyTest(t) == None && RuleTest(t) == None
  {
    hide Within, Has, EarlyTest, MoneyTest, RuleTest;
    assert Poor(ALPHABET);
    NoCancel(t);
    NoCommonWords(t);
    NoEarlyTest(t, ALPHABET);
    NoMoneyTest(t, ALPHABET);
    NoRuleTest(t, ALPHABET);
  }

  // ----- the send test takes all of it -----

  lemma HeadOfWord(w: string, x: string, i: nat)
    requires i + |w| <= |x| && x[i..i + |w|] == w && Lower(w) == w
    ensures Ends(Lits(w), x, i) == [i + |w|]
  {
  }

  lemma HeadOfFirstWord(w: string, ws: seq<string>, x: string, i: nat)
    requires i + |w| <= |x| && x[i..i + |w|] == w && Lower(w) == w
    ensures Ends(Words([w] + ws), x, i) != [] && Ends(Words([w] + ws), x, i)[0] == i + |w|
  {
    HeadOfWord(w, x, i);
    assert ([w] + ws)[1..] == ws;
  }

  lemma HeadOfOpt(r: Re, x: string, i: nat, e: nat)
    requires i <= |x| && Ends(r, x, i) != [] && Ends(r, x, i)[0] == e
    ensures Ends(Opt(r), x, i) != [] && Ends(Opt(r), x, i)[0] == e
  {
  }

  const CENTS := Cat(Lits("."), Some1(Digit))

  /** A point and n digits. */
  lemma CentsHead(x: string, i: nat, n: nat)
    requires n >= 1 && i + n + 1 < |x| && x[i] == '.' && (forall j | i < j <= i + n :: IsDigit(x[j])) && !IsDigit(x[i + n + 1])
    ensures Ends(Opt(CENTS), x, i) != [] && Ends(Opt(CENTS), x, i)[0] == i + n + 1
  {
    hide Ends;
    ManyHead(Digit, 1, x, i + 1, n);
    assert x[i..i + 1] == "." && Lower(".") == ".";
    HeadOfWord(".", x, i);
    CatHead(Lits("."), Some1(Digit), x, i, i + 1, i + n + 1);
    HeadOfOpt(CENTS, x, i, i + n + 1);
  }

  lemma NoPointHere(x: string, i: nat)
    requires i < |x| && x[i] != '.'
    ensures Ends(Opt(CENTS), x, i) == [i]
  {
    assert Lower(x[i..i + 1])[0] == LowerChar(x[i]);
    assert Ends(Lits("."), x, i) == [];
  }

  lemma NumberHead(a: string, x: string, i: nat)
    requires IsDecimal(a) && i + |a| < |x| && x[i..i + |a|] == a && !IsDigit(x[i + |a|]) && x[i + |a|] != '.'
    ensures Ends(NUMBER, x, i) != [] && Ends(NUMBER, x, i)[0] == i + |a|
  {
    hide Ends;
    var k: nat :| 0 < k <= |a| && AllDigits(a[..k]) && (k == |a| || (a[k] == '.' && k + 1 < |a| && AllDigits(a[k + 1..])));
    assert forall j | i <= j < i + |a| :: x[j] == x[i..i + |a|][j - i];
    forall j | i <= j < i + k ensures IsDigit(x[j]) {
      assert a[..k][j - i] == x[j];
    }
    ManyHead(Digit, 1, x, i, k);
    if k == |a| {
      NoPointHere(x, i + k);
    } else {
      forall j | i + k < j < i + |a| ensures IsDigit(x[j]) {
        assert a[k + 1..][j - i - k - 1] == x[j];
      }
      CentsHead(x, i + k, |a| - k - 1);
    }
    CatHead(Some1(Digit), Opt(CENTS), x, i, i + k, i + |a|);
  }

  lemma TargetHead(t: string, x: string, i: nat)
    requires IsTarget(t) && i + |t| == |x| && x[i..] == t
    ensures Ends(SEND[8], x, i) != [] && Ends(SEND[8], x, i)[0] == |x|
  {
    var lead, tail := Either(Of("+"), Digit), Either(Digit, Either(Space, Of("().-")));
    assert x[i] == t[0] == '+';
    forall j | i < j < |x| ensures IsDigit(x[j]) && tail.Has(x[j]) && PAYEE_CHARS.Has(x[j]) {
      assert x[j] == x[i..][j - i] == t[1..][j - i - 1];
      WordChars(x[j]);
    }
    LongestRun(lead, x, i, 1, Some(1));
    assert Ends(One(lead), x, i) == [i + 1];
    var phone := Cat(One(lead), Many(tail, 6, None));
    if |t| - 1 >= 6 {
      ManyHead(tail, 6, x, i + 1, |t| - 1);
      CatHead(One(lead), Many(tail, 6, None), x, i, i + 1, |x|);
    } else {
      LongestRun(tail, x, i + 1, |t| - 1, None);
      assert Ends(phone, x, i) == [];
      assert PAYEE_CHARS.Has('+');
      ManyHead(PAYEE_CHARS, 1, x, i, |t|);
    }
  }

  /** Where each part of the send expression ends in a payment text. */
  function PayEnds(a: string, t: string): seq<nat> {
    var n := |a|;
    [0, 4, 5, n + 5, n + 6, n + 10, n + 11, n + 14, n + 14, n + 14 + |t|]
  }

  lemma PayTextShape(a: string, t: string)
    requires IsDecimal(a) && IsTarget(t)
    ensures var x, n := PayText(a, t), |a|;
            && |x| == n + 14 + |t| && x[0..4] == "send" && x[4] == ' ' && x[5..n + 5] == a && IsDigit(x[5])
            && x[n + 5] == ' ' && x[n + 6..n + 10] == "usdt" && x[n + 6] == 'u' && x[n + 10] == ' '
            && x[n + 11..n + 13] == "to" && x[n + 11] == 't' && x[n + 13] == ' ' && x[n + 14..] == t && x[n + 14] == '+'
  {
    var k: nat :| 0 < k <= |a| && AllDigits(a[..k]) && (k == |a| || (a[k] == '.' && k + 1 < |a| && AllDigits(a[k + 1..])));
    assert a[..k][0] == a[0];
    var x, head, mid := PayText(a, t), "send " + a + " usdt to ", " usdt to ";
    assert x == head + t && |head| == |a| + 14;
    assert head[..|a| + 5] == "send " + a && head[|a| + 5..] == mid;
    assert forall i | 0 <= i < 9 :: x[|a| + 5 + i] == mid[i];
    assert mid[1..5] == "usdt" && mid[6..8] == "to";
    assert x[|a| + 6..|a| + 10] == mid[1..5] && x[|a| + 11..|a| + 13] == mid[6..8];
    assert x[0..5] == "send " && x[5..|a| + 5] == a;
    assert x[0..4] == "send " [0..4];
  }

  lemma LeadingParts(a: string, t: string)
    requires IsDecimal(a) && IsTarget(t)
    ensures var x, n := PayText(a, t), |a|;
            && Ends(SEND[0], x, 0) != [] && Ends(SEND[0], x, 0)[0] == 4
            && Ends(SEND[1], x, 4) != [] && Ends(SEND[1], x, 4)[0] == 5
            && Ends(SEND[2], x, 5) != [] && Ends(SEND[2], x, 5)[0] == n + 5
            && Ends(SEND[3], x, n + 5) != [] && Ends(SEND[3], x, n + 5)[0] == n + 6
  {
    hide Ends, IsDecimal;
    var x, n := PayText(a, t), |a|;
    PayTextShape(a, t);
    assert ["send"] + ["transfer", "pay"] == ["send", "transfer", "pay"];
    assert Lower("send") == "send";
    HeadOfFirstWord("send", ["transfer", "pay"], x, 0);
    ManyHead(Space, 1, x, 4, 1);
    NumberHead(a, x, 5);
    ManyHead(Space, 0, x, n + 5, 1);
  }

  lemma MiddleParts(a: string, t: string)
    requires IsDecimal(a) && IsTarget(t)
    ensures var x, n := PayText(a, t), |a|;
            && |x| == n + 14 + |t|
            && Ends(SEND[4], x, n + 6) != [] && Ends(SEND[4], x, n + 6)[0] == n + 10
            && Ends(SEND[5], x, n + 10) != [] && Ends(SEND[5], x, n + 10)[0] == n + 11
            && Ends(SEND[6], x, n + 11) != [] && Ends(SEND[6], x, n + 11)[0] == n + 14
  {
    hide Ends, IsDecimal;
    var x, n := PayText(a, t), |a|;
    PayTextShape(a, t);
    var others := ["usdc", "usd", "dollars", "dollar", "bucks", "buck"];
    assert ["usdt"] + others == ["usdt", "usdc", "usd", "dollars", "dollar", "bucks", "buck"];
    assert Lower("usdt") == "usdt" && Lower("to") == "to";
    HeadOfFirstWord("usdt", others, x, n + 6);
    HeadOfOpt(Words(["usdt"] + others), x, n + 6, n + 10);
    ManyHead(Space, 1, x, n + 10, 1);
    HeadOfWord("to", x, n + 11);
    ManyHead(Space, 1, x, n + 13, 1);
    CatHead(Lits("to"), SPACE, x, n + 11, n + 13, n + 14);
    HeadOfOpt(Cat(Lits("to"), SPACE), x, n + 11, n + 14);
  }

  /** The first choice of r at i ends at e. */
  predicate Starts(r: Re, x: string, i: nat, e: nat)
    requires i <= |x|
  {
    Ends(r, x, i) != [] && Ends(r, x, i)[0] == e
  }

  lemma NoThisNumber(x: string, i: nat)
    requires i <= |x| && Within(x, ALPHABET)
    ensures Ends(SEND[7], x, i) == [i]
  {
    hide Within;
    var words := [Lits("this"), SPACE, Lits("number"), SPACE];
    RareAt("this", 1, ALPHABET);
    PartNeedsRare(words, 0, ALPHABET);
    RareNeverMatches(All(words), x, i, ALPHABET);
    assert SEND[7] == Opt(All(words));
  }

  lemma LastParts(a: string, t: string)
    requires IsDecimal(a) && IsTarget(t)
    ensures var x, n := PayText(a, t), |a|;
            && |x| == n + 14 + |t|
            && Starts(SEND[7], x, n + 14, n + 14) && Starts(SEND[8], x, n + 14, |x|)
  {
    hide IsDecimal, Within, Ends, All;
    var x, n := PayText(a, t), |a|;
    PayTextShape(a, t);
    PayTextIsCommon(a, t);
    TargetHead(t, x, n + 14);
    NoThisNumber(x, n + 14);
  }

  lemma SendMatches(a: string, t: string)
    requires IsDecimal(a) && IsTarget(t)
    ensures Match(SEND, PayText(a, t), 0) == Some((0, PayEnds(a, t)[1..]))
  {
    hide Ends, IsDecimal, Search;
    LeadingParts(a, t);
    MiddleParts(a, t);
    LastParts(a, t);
    assert FirstChoices(SEND, PayText(a, t), PayEnds(a, t));
    FirstChoicesAreTheMatch(SEND, PayText(a, t), PayEnds(a, t));
  }

  // ----- reading a message -----

  /** `cleanPayee`. */
  function CleanPayee(raw: string): string {
    var t := Trim(raw);
    var only := Digits(t);
    if (|t| >= 2 && (t[0] == '+' || IsDigit(t[0])) && forall k | 1 <= k < |t| :: IsDigit(t[k]) || IsSpace(t[k]) || t[k] in "().-")
       || 7 <= |only| <= 15 then
      if StartsWith(DigitsAndPlus(t), "+") then DigitsAndPlus(t)
      else if |only| == 10 then "+1" + only
      else "+" + only
    else t
  }

  const SLASH := [First, Lits("/"), Some1(WORD), Opt(Cat(Lits("@"), Some1(WORD))), Opt(Cat(One(Space), Star(Either(Any, Of("\n"))))), Last]

  /** `stripSlashCommand`. */
  function Strip(text: string): string {
    var t := Trim(text);
    match Match(SLASH, t, 0)
    case None => t
    case Some((i, v)) => if |v| == 6 && v[1] <= v[2] <= |t| && v[3] <= v[4] <= |t| then Trim(t[v[1]..v[2]] + t[v[3]..v[4]]) else t
  }

  /** What a text means, as far as payments go: the amount and payee it names, or the test that took it. */
  datatype Reading = Payment(amount: string, to: string) | Taken(test: Test)

  function Read(text: string): Reading {
    var t := Strip(text);
    var test := FirstTest(t);
    if test != SendOrLater then Taken(test)
    else
      match Match(SEND, t, 0)
      case None => Taken(SendOrLater)
      case Some((i, v)) =>
        if |v| == 9 && v[1] <= v[2] <= |t| && v[7] <= v[8] <= |t| then Payment(t[v[1]..v[2]], CleanPayee(t[v[7]..v[8]]))
        else Taken(SendOrLater)
  }

  lemma {:induction false} NoSlashLater(t: string, i: nat)
    requires 0 < i <= |t|
    ensures Match(SLASH, t, i) == None
    decreases |t| - i
  {
    assert Ends(SLASH[0], t, i) == [];
    assert Search(SLASH, t, i) == None;
    if i < |t| {
      NoSlashLater(t, i + 1);
    }
  }

  lemma NoSlash(t: string)
    requires t != "" && t[0] != '/'
    ensures Match(SLASH, t, 0) == None
  {
    assert Ends(SLASH[0], t, 0) == [0];
    assert Ends(SLASH[1..][0], t, 0) == [] by {
      assert SLASH[1..][0] == Lits("/");
      assert Lower(t[0..1])[0] == LowerChar(t[0]);
    }
    assert Search(SLASH[1..], t, 0) == None;
    assert [0][1..] == [];
    assert TryEach(SLASH[1..], t, [0]) == None;
    assert Search(SLASH, t, 0) == None;
    NoSlashLater(t, 1);
  }

  lemma PayTextIsStripped(a: string, t: string)
    requires IsDecimal(a) && IsTarget(t)
    ensures Strip(PayText(a, t)) == PayText(a, t)
  {
    hide IsDecimal;
    var x := PayText(a, t);
    PayTextShape(a, t);
    assert x[|x| - 1] == t[1..][|t| - 2];
    NoSpaceNoTrim(x);
    NoSlash(x);
  }

  lemma NoEarlierTest(a: string, t: string)
    requires IsDecimal(a) && IsTarget(t)
    ensures FirstTest(PayText(a, t)) == SendOrLater
  {
    hide IsDecimal, EarlyTest, MoneyTest, RuleTest, AccountTest, Within;
    PayTextShape(a, t);
    PayTextIsCommon(a, t);
    NoFirstTests(PayText(a, t));
    NoAccountTest(PayText(a, t));
  }

  lemma TargetsAreClean(t: string)
    requires IsTarget(t)
    ensures CleanPayee(t) == t
  {
    forall k | 1 <= k < |t| ensures IsDigit(t[k]) {
      assert t[k] == t[1..][k - 1];
    }
    NoSpaceNoTrim(t);
    DigitsAndPlusKeep(t);
  }

  /** "send A usdt to T" is read as exactly that payment, for every plain decimal A and every number T:
      no earlier test of the grammar takes it, and the send rule captures A and T whole. */
  lemma PayTextsReadBack(a: string, t: string)
    requires IsDecimal(a) && IsTarget(t)
    ensures Read(PayText(a, t)) == Payment(a, t)
  {
    hide IsDecimal, FirstTest, Strip, Match, CleanPayee;
    PayTextShape(a, t);
    PayTextIsStripped(a, t);
    NoEarlierTest(a, t);
    SendMatches(a, t);
    TargetsAreClean(t);
    var x, v := PayText(a, t), PayEnds(a, t)[1..];
    assert v[1] == 5 && v[2] == |a| + 5 && v[7] == |a| + 14 && v[8] == |x|;
    assert x[v[7]..v[8]] == x[|a| + 14..];
  }

  /** The round trip for an amount: what is printed for m micro-dollars is read as m micro-dollars. */
  lemma PrintedPaymentsReadBack(micro: nat, t: string)
    requires IsTarget(t)
    ensures var r := Read(PayText(AmountText(micro), t));
            r.Payment? && Micro(r.amount) == Some(micro) && r.to == t
  {
    AmountsReadBack(micro);
    PayTextsReadBack(AmountText(micro), t);
  }
}
