/** Texts with PINs and codes through the whole message grammar (orchestrator/src/lib/intent.ts):
    "recover" asks for a code, "recover confirm C P" tests the code C, "CONFIRM P" gives the PIN P. */
module PinTexts {
  import opened Text
  import opened Regex
  import opened Grammar
  import opened SendText
  import opened Labels

  const ALPHABET := {'r', 'e', 'c', 'o', 'v', 'n', 'f', 'i', 'm', ' ', '0', '1', '2', '3', '4', '5', '6', '7', '8', '9'}

  function CodeText(code: string, pin: string): string {
    "recover confirm " + code + " " + pin
  }

  predicate IsCode(code: string, pin: string) {
    AllDigits(code) && 4 <= |code| <= 8 && AllDigits(pin) && 4 <= |pin| <= 6
  }

  lemma DigitsAreWithin(s: string)
    requires AllDigits(s)
    ensures Within(s, ALPHABET)
  {
    forall i | 0 <= i < |s| ensures LowerChar(s[i]) in ALPHABET {
      assert LowerChar(s[i]) == s[i];
    }
  }

  lemma CodeTextIsCommon(code: string, pin: string)
    requires IsCode(code, pin)
    ensures Within(CodeText(code, pin), ALPHABET)
  {
    DigitsAreWithin(code);
    DigitsAreWithin(pin);
    assert Within("recover confirm ", ALPHABET) && Within(" ", ALPHABET);
    WithinPlus("recover confirm ", code, ALPHABET);
    WithinPlus("recover confirm " + code, " ", ALPHABET);
    WithinPlus("recover confirm " + code + " ", pin, ALPHABET);
  }

  lemma NoOtherStart(t: string)
    requires t != "" && t[0] == 'r'
    ensures !Has(CANCEL, t) && !Has(CONFIRM, t) && !Has(BUY, t) && !Has(NEVER_SEND, t) && !Has(IDENTITY, t)
  {
    hide Has, Words;
    OtherStart(CANCEL, ["cancel", "no", "stop"], t);
    OtherStart(CONFIRM, ["confirm", "yes", "y", "ok", "okay"], t);
    OtherStart(BUY, ["buy", "order", "purchase"], t);
    assert NEVER_SEND[1] == Words(["never"]) by { WordAlone("never"); }
    OtherStart(NEVER_SEND, ["never"], t);
    OtherStart(IDENTITY, ["identity", "tier", "limits"], t);
  }

  lemma WordAlone(w: string)
    ensures Words([w]) == Lits(w)
  {
  }

  /** No test before the recovery tests takes a text that starts with r over this alphabet. */
  lemma OnlyRecovery(t: string)
    requires t != "" && t[0] == 'r' && Within(t, ALPHABET)
    ensures EarlyTest(t) == None && MoneyTest(t) == None && RuleTest(t) == None
    ensures !Has(ATTEST, t) && !Has(IDENTITY, t) && !Has(REPORT_SIM, t) && !Has(CALLBACK, t)
  {
    hide Within, Has, EarlyTest, MoneyTest, RuleTest;
    assert Poor(ALPHABET);
    NoOtherStart(t);
    NoEarlyTest(t, ALPHABET);
    NoMoneyTest(t, ALPHABET);
    NoRuleTest(t, ALPHABET);
    NoAttest(t, ALPHABET);
    NoReportSim(t, ALPHABET);
    NoCallback(t, ALPHABET);
  }

  // ----- asking for a code -----

  lemma RecoverMatches()
    ensures Has(RECOVER, "recover")
  {
    var t := "recover";
    assert t[0..7] == t && Lower(t) == t;
    HeadOfWord("recover", t, 0);
    assert 7 in Ends(Cat(Lits("recover"), Opt(Cat(SPACE, Lits("pin")))), t, 0) by {
      CatMembers(Lits("recover"), Opt(Cat(SPACE, Lits("pin"))), t, 0, 7);
      OptIsFine(Cat(SPACE, Lits("pin")), t, 7);
    }
    WordChars(t[6]);
    assert AtEdge(t, 7);
    assert Path(RECOVER, t, [0, 0, 7, 7]);
    PathIsMatch(RECOVER, t, [0, 0, 7, 7]);
    FoundAt(All(RECOVER), t, 0);
  }

  lemma RecoverIsNoCode()
    ensures !Has(RECOVER_LEAD, "recover")
  {
    var letters := {'r', 'e', 'c', 'o', 'v'};
    assert Within("recover", letters);
    NoWord(RECOVER_LEAD, 3, "confirm", 3, "recover", letters);
  }

  /** "recover" asks for a recovery code. */
  lemma RecoverIsRead()
    ensures Strip("recover") == "recover" && FirstTest("recover") == Recover
  {
    hide Has, EarlyTest, MoneyTest, RuleTest, Strip;
    OnlyRecovery("recover");
    RecoverMatches();
    RecoverIsNoCode();
    NothingToStrip("recover");
  }

  lemma NothingToStrip(t: string)
    requires t != "" && t[0] != '/' && !IsSpace(t[0]) && !IsSpace(t[|t| - 1])
    ensures Strip(t) == t
  {
    hide Match;
    NoSpaceNoTrim(t);
    NoSlash(t);
  }

  // ----- testing a code -----

  /** What a text means, as far as testing codes goes. */
  function ReadCode(text: string): Option<(string, string)> {
    var t := Strip(text);
    if FirstTest(t) != RecoverConfirm then None
    else
      match Match(RECOVER_CONFIRM, t, 0)
      case None => None
      case Some((i, v)) =>
        if |v| == 10 && v[4] <= v[5] <= |t| && v[6] <= v[7] <= |t| then Some((t[v[4]..v[5]], t[v[6]..v[7]])) else None
  }

  /** Where each part of the test ends in the text. */
  function CodeEnds(code: string, pin: string): seq<nat> {
    var n, m := |code|, |code| + |pin|;
    [0, 0, 7, 8, 15, 16, n + 16, n + 17, m + 17, m + 17, m + 17]
  }

  lemma CodeTextShape(code: string, pin: string)
    requires IsCode(code, pin)
    ensures var x, n := CodeText(code, pin), |code|;
            && |x| == n + 17 + |pin| && x[0..7] == "recover" && x[7] == ' ' && x[8] == 'c' && x[8..15] == "confirm" && x[15] == ' '
            && x[16..n + 16] == code && x[n + 16] == ' ' && x[n + 17..] == pin && x[0] == 'r'
            && (forall i | 16 <= i < n + 16 :: IsDigit(x[i])) && (forall i | n + 17 <= i < |x| :: IsDigit(x[i]))
  {
    var x, lead := CodeText(code, pin), "recover confirm ";
    assert x == lead + (code + (" " + pin));
    assert lead[0..7] == "recover" && lead[8..15] == "confirm";
    assert x[0..7] == lead[0..7] && x[8..15] == lead[8..15];
    forall i | 16 <= i < |code| + 16 ensures IsDigit(x[i]) {
      assert x[i] == code[i - 16];
    }
    forall i | |code| + 17 <= i < |x| ensures IsDigit(x[i]) {
      assert x[i] == pin[i - |code| - 17];
    }
  }

  /** A run of digits that is neither too short nor too long is taken whole. */
  lemma DigitsHead(min: nat, max: nat, x: string, i: nat, n: nat)
    requires min <= n <= max && i + n <= |x| && (forall k | i <= k < i + n :: IsDigit(x[k]))
    requires i + n == |x| || !IsDigit(x[i + n])
    ensures Starts(Many(Digit, min, Some(max)), x, i, i + n)
  {
    LongestRun(Digit, x, i, n, Some(max));
  }

  lemma LeadingWords(code: string, pin: string)
    requires IsCode(code, pin)
    ensures var x := CodeText(code, pin);
            && |x| >= 24 && Starts(First, x, 0, 0) && Starts(Lits("recover"), x, 0, 7) && Starts(SPACE, x, 7, 8)
            && Starts(Lits("confirm"), x, 8, 15) && Starts(SPACE, x, 15, 16)
  {
    hide CodeText;
    var x := CodeText(code, pin);
    CodeTextShape(code, pin);
    assert Lower("recover") == "recover" && Lower("confirm") == "confirm";
    HeadOfWord("recover", x, 0);
    HeadOfWord("confirm", x, 8);
    ManyHead(Space, 1, x, 7, 1);
    assert IsDigit(x[16]);
    ManyHead(Space, 1, x, 15, 1);
  }

  lemma TrailingDigits(code: string, pin: string)
    requires IsCode(code, pin)
    ensures var x, n := CodeText(code, pin), |code|;
            && |x| == n + 17 + |pin|
            && Starts(Many(Digit, 4, Some(8)), x, 16, n + 16) && Starts(SPACE, x, n + 16, n + 17)
            && Starts(PIN_DIGITS, x, n + 17, |x|) && Starts(GAP, x, |x|, |x|) && Starts(Last, x, |x|, |x|)
  {
    var x, n := CodeText(code, pin), |code|;
    CodeTextShape(code, pin);
    DigitsHead(4, 8, x, 16, n);
    assert IsDigit(x[n + 17]);
    ManyHead(Space, 1, x, n + 16, 1);
    DigitsHead(4, 6, x, n + 17, |pin|);
    ManyHead(Space, 0, x, |x|, 0);
  }

  lemma CodeMatches(code: string, pin: string)
    requires IsCode(code, pin)
    ensures Match(RECOVER_CONFIRM, CodeText(code, pin), 0) == Some((0, CodeEnds(code, pin)[1..]))
    ensures Has(RECOVER_CONFIRM, CodeText(code, pin)) && Has(RECOVER_LEAD, CodeText(code, pin))
  {
    hide Ends, IsCode, Search, CodeText, All;
    var x, at := CodeText(code, pin), CodeEnds(code, pin);
    LeadingWords(code, pin);
    TrailingDigits(code, pin);
    assert FirstChoices(RECOVER_CONFIRM, x, at);
    FirstChoicesAreTheMatch(RECOVER_CONFIRM, x, at);
    assert Path(RECOVER_CONFIRM, x, at);
    PathIsMatch(RECOVER_CONFIRM, x, at);
    FoundAt(All(RECOVER_CONFIRM), x, 0);
    assert Path(RECOVER_LEAD, x, [0, 0, 7, 8, 15]);
    PathIsMatch(RECOVER_LEAD, x, [0, 0, 7, 8, 15]);
    FoundAt(All(RECOVER_LEAD), x, 0);
  }

  /** "recover confirm C P" is read as a test of the code C for the new PIN P, for all digits C and P of the
      allowed lengths. */
  lemma CodeTextsReadBack(code: string, pin: string)
    requires IsCode(code, pin)
    ensures ReadCode(CodeText(code, pin)) == Some((code, pin))
  {
    hide Has, EarlyTest, MoneyTest, RuleTest, Strip, Match;
    var x, v := CodeText(code, pin), CodeEnds(code, pin)[1..];
    CodeTextShape(code, pin);
    CodeTextIsCommon(code, pin);
    OnlyRecovery(x);
    CodeMatches(code, pin);
    NothingToStrip(x);
    assert x[v[4]..v[5]] == code && x[v[6]..v[7]] == pin;
  }

  // ----- giving a PIN -----

  /** The text as the worker writes it (orchestrator/src/lib/workers.ts). */
  function ConfirmText(pin: string): string {
    "CONFIRM " + pin
  }

  predicate IsPin(pin: string) {
    AllDigits(pin) && 4 <= |pin| <= 6
  }

  /** The PIN that a confirmation gives, if it gives one. */
  function ReadPin(text: string): Option<string> {
    var t := Strip(text);
    if FirstTest(t) != Confirm then None
    else
      match Match(CONFIRM, t, 0)
      case None => None
      case Some((i, v)) => if |v| == 4 && v[2] < v[3] <= |t| then Some(Trim(t[v[2]..v[3]])) else None
  }

  lemma ConfirmTextShape(pin: string)
    requires IsPin(pin)
    ensures var x := ConfirmText(pin);
            && |x| == 8 + |pin| && Lower(x[0..7]) == "confirm" && x[6] == 'M' && x[7] == ' ' && x[8..] == pin && x[7..] == " " + pin
            && x[0] == 'C' && forall i | 8 <= i < |x| :: IsDigit(x[i])
  {
    var x := ConfirmText(pin);
    assert x[0..7] == "CONFIRM" && Lower("CONFIRM") == "confirm";
    forall i | 8 <= i < |x| ensures IsDigit(x[i]) {
      assert x[i] == pin[i - 8];
    }
  }

  const CONFIRM_ALPHABET := {'c', 'o', 'n', 'f', 'i', 'r', 'm', ' ', '0', '1', '2', '3', '4', '5', '6', '7', '8', '9'}

  lemma ConfirmTextIsCommon(pin: string)
    requires IsPin(pin)
    ensures Within(ConfirmText(pin), CONFIRM_ALPHABET)
  {
    assert Within("CONFIRM ", CONFIRM_ALPHABET);
    assert Within(pin, CONFIRM_ALPHABET) by {
      forall i | 0 <= i < |pin| ensures LowerChar(pin[i]) in CONFIRM_ALPHABET {
        assert LowerChar(pin[i]) == pin[i];
      }
    }
    WithinPlus("CONFIRM ", pin, CONFIRM_ALPHABET);
  }

  /** "cancel" starts with the same letter, but it has an a. */
  lemma NoCancelHere(t: string)
    requires Within(t, CONFIRM_ALPHABET) && t != "" && LowerChar(t[0]) == 'c'
    ensures Ends(CANCEL[1], t, 0) == []
  {
    RareAt("cancel", 1, CONFIRM_ALPHABET);
    RareNeverMatches(Lits("cancel"), t, 0, CONFIRM_ALPHABET);
    OtherWords(["no", "stop"], t);
    assert ["cancel", "no", "stop"][1..] == ["no", "stop"];
  }

  lemma NoHelloNoCancel(t: string)
    requires Within(t, CONFIRM_ALPHABET) && t != "" && LowerChar(t[0]) == 'c'
    ensures !Has(HELLO, t) && !Has(CANCEL, t)
  {
    hide All, Words, Within;
    NoWords(HELLO, 1, ["hi", "hello", "hey", "start"], [0, 0, 0, 2], t, CONFIRM_ALPHABET);
    if Has(CANCEL, t) {
      var i: nat :| i <= |t| && Ends(All(CANCEL), t, i) != [];
      var at := PathOf(CANCEL, t, i, Ends(All(CANCEL), t, i)[0]);
      assert at[1] in Ends(CANCEL[0], t, at[0]);
      assert at[2] in Ends(CANCEL[1], t, at[1]);
      NoCancelHere(t);
      assert false;
    }
  }

  lemma ConfirmWord(pin: string)
    requires IsPin(pin)
    ensures var x := ConfirmText(pin); |x| >= 12 && Starts(CONFIRM[1], x, 0, 7) && Starts(Edge, x, 7, 7)
  {
    var x, others := ConfirmText(pin), ["yes", "y", "ok", "okay"];
    ConfirmTextShape(pin);
    assert Ends(Lits("confirm"), x, 0) == [7];
    assert ["confirm"] + others == ["confirm", "yes", "y", "ok", "okay"] && (["confirm"] + others)[1..] == others;
    WordChars(x[6]);
    WordChars(x[7]);
  }

  lemma ConfirmDigits(pin: string)
    requires IsPin(pin)
    ensures var x := ConfirmText(pin); |x| >= 12 && Starts(CONFIRM[3], x, 7, |x|)
  {
    hide Ends, ConfirmText;
    var x := ConfirmText(pin);
    ConfirmTextShape(pin);
    assert IsDigit(x[8]);
    ManyHead(Space, 1, x, 7, 1);
    DigitsHead(4, 6, x, 8, |pin|);
    CatHead(SPACE, PIN_DIGITS, x, 7, 8, |x|);
    HeadOfOpt(Cat(SPACE, PIN_DIGITS), x, 7, |x|);
  }

  lemma ConfirmMatches(pin: string)
    requires IsPin(pin)
    ensures var x := ConfirmText(pin);
            |x| >= 12 && Match(CONFIRM, x, 0) == Some((0, [0, 7, 7, |x|])) && Has(CONFIRM, x)
  {
    hide Ends, IsPin, Search, ConfirmText, All, Words;
    var x := ConfirmText(pin);
    ConfirmWord(pin);
    ConfirmDigits(pin);
    assert Starts(First, x, 0, 0) by { FirstAtStart(x); }
    var at := [0, 0, 7, 7, |x|];
    assert FirstChoices(CONFIRM, x, at);
    FirstChoicesAreTheMatch(CONFIRM, x, at);
    assert at[1..] == [0, 7, 7, |x|];
    assert Path(CONFIRM, x, at);
    PathIsMatch(CONFIRM, x, at);
    FoundAt(All(CONFIRM), x, 0);
  }

  lemma FirstAtStart(x: string)
    ensures Starts(First, x, 0, 0)
  {
  }

  /** "CONFIRM P" is read as a confirmation with the PIN P, for every PIN of four to six digits. */
  lemma ConfirmTextsReadBack(pin: string)
    requires IsPin(pin)
    ensures ReadPin(ConfirmText(pin)) == Some(pin)
  {
    hide Has, MoneyTest, RuleTest, AccountTest, Strip, Match, Within;
    var x := ConfirmText(pin);
    ConfirmTextShape(pin);
    ConfirmTextIsCommon(pin);
    NoHelloNoCancel(x);
    ConfirmMatches(pin);
    assert IsDigit(x[|x| - 1]);
    NothingToStrip(x);
    assert x[7..|x|] == " " + pin;
    TrimmedPin(pin);
  }

  lemma ConfirmsAreNoPayments(text: string)
    requires ReadPin(text).Some?
    ensures Read(text) == Taken(Confirm)
  {
    hide Strip, FirstTest, Match;
  }

  lemma TrimmedPin(pin: string)
    requires IsPin(pin)
    ensures Trim(" " + pin) == pin
  {
    assert (" " + pin)[1..] == pin;
    assert IsDigit(pin[0]) && IsDigit(pin[|pin| - 1]);
    NoSpaceNoTrim(pin);
  }
}
