/** The message grammar in source order (orchestrator/src/lib/intent.ts, `parseIntent`): which test
    takes a text first.  Every test before the send rule is here as its regular expression. */
module Grammar {
  import opened Text
  import opened Regex

  const SPACE := Some1(Space)
  const GAP := Star(Space)
  const REST := Some1(Any)
  const NUMBER := Cat(Some1(Digit), Opt(Cat(Lits("."), Some1(Digit))))
  const PIN_DIGITS := Many(Digit, 4, Some(6))

  // ----- the tests, each as the parts of a sequence -----

  const HELLO := [First, Words(["hi", "hello", "hey", "start"]), GAP, Star(Of("!.")), Last]
  const CANCEL := [First, Words(["cancel", "no", "stop"]), Edge]
  const CONFIRM := [First, Words(["confirm", "yes", "y", "ok", "okay"]), Edge, Opt(Cat(SPACE, PIN_DIGITS))]
  const PIN := [Words(["pin", "set pin"]), GAP, Many(Of(":="), 0, Some(1)), GAP, PIN_DIGITS]
  const NAME := [Words(["my name is", "i'm", "i am", "call me", "this is"]), SPACE, One(Letter),
                 Many(Either(Letter, Of("'-")), 1, Some(30))]
  const HELP := [First, Words(["help", "commands"]), Edge]
  const RATE := [First, AnyOf([Lits("rate"), All([Lits("dial"), GAP, Many(Of("a"), 0, Some(1)), GAP, Lits("rate")]),
                               All([Lits("reference"), SPACE, Lits("rate")]), All([Lits("fx"), SPACE, Lits("rate")])]), Edge]
  const DOLLAR_RATE := [First, Opt(All([Words(["what's", "what is"]), SPACE])), Opt(Cat(Lits("the"), SPACE)),
                        Words(["usd", "usdc", "dollar"]), SPACE, Lits("rate"), Edge]

  const COUNT := Or(NUMBER, Words(["a", "an"]))
  const CURRENCY := Opt(Words(["euro", "euros", "eur", "dollar", "dollars", "usd", "usdc", "bucks", "buck"]))
  const FOR_WHOM := Opt(All([SPACE, Words(["for", "to", "on"]), SPACE, REST]))
  const TOP_UP := All([Lits("top"), GAP, Lits("up")])
  const AIRTIME_LEAD := [First, Lits("airtime"), SPACE, COUNT, GAP, CURRENCY, FOR_WHOM]
  const AIRTIME := [Opt(Cat(AnyOf([TOP_UP, Words(["buy", "get", "reload", "purchase"])]), SPACE)), COUNT, GAP, CURRENCY, GAP,
                    Opt(Cat(Lits("of"), SPACE)), Lits("airtime"), FOR_WHOM]
  const TOPUP_ALT := [AnyOf([TOP_UP, Words(["reload", "recharge"])]), SPACE, COUNT, GAP,
                      Opt(Words(["euro", "euros", "eur", "dollar", "dollars", "usd", "usdc"])), FOR_WHOM]
  const TOPUP_WORD := [AnyOf([Lits("airtime"), TOP_UP, Words(["reload", "recharge"])])]

  const SHOP := [First, Lits("shop"), Opt(Cat(SPACE, Lits("for"))), SPACE, REST, Last]
  const BUY := [First, Words(["buy", "order", "purchase"]), SPACE,
                Or(Cat(One(Either(Letter, Digit)), Many(Either(Either(Letter, Digit), Of("-")), 1, Some(60))),
                   Many(Digit, 1, Some(2))), GAP, Last]
  const BUY_OR_SHOP := [First, Words(["buy", "shop"]), Edge]

  const MY := Opt(Cat(Lits("my"), SPACE))
  const BALANCE := [Edge, MY, Lits("balance"), Edge]
  const WHAT_BALANCE := [Lits("what"), Opt(Words(["'s", " is", "s"])), SPACE, MY, Lits("balance"), Edge]
  const CHECK_BALANCE := [Lits("check"), SPACE, MY, Lits("balance"), Edge]
  const HOW_MUCH := [Lits("how much"), Star(Any), Words(["have", "left"])]
  const HOW_MUCH_MONEY := [Lits("how"), SPACE, Lits("much"), SPACE,
                           AnyOf([All([Lits("do"), SPACE, Lits("i"), SPACE, Lits("have")]), Words(["money", "usdc", "usdt"])]), Edge]
  const DEPOSIT := [First, Lits("deposit"), Edge]
  const WALLET := [Lits("wallet address")]
  const CONTACTS := [First, Lits("contacts"), Edge]
  const HISTORY := [First, Words(["history", "ledger", "txs", "tx", "transactions"]), Edge]

  const SHOW_POLICY := [First, Lits("show"), SPACE, Lits("policy"), Edge]
  const MY_RULES := [First, Lits("my"), SPACE, Words(["rules", "rule"]), Edge]
  const CLEAR_POLICY := [First, Lits("clear"), SPACE, Lits("policy"), Edge]
  const REVOKE_RULES := [First, Lits("revoke"), SPACE, Words(["rules", "rule"]), Edge]
  const CONFIRM_POLICY := [First, Lits("confirm"), SPACE, Lits("policy"), Edge]
  const SET_POLICY := [First, Words(["policy", "rule"]), GAP, Many(Of(":"), 0, Some(1)), GAP, REST, Last]
  const NEVER_SEND := [First, Lits("never"), SPACE, Lits("send"), Edge, REST]

  const LIST_STANDING := [First, Lits("list"), SPACE, Lits("standing"), Edge]
  const STANDING_ORDERS := [First, Lits("standing"), SPACE, Words(["orders", "order"]), Edge]
  const CANCEL_STANDING := [First, Lits("cancel"), SPACE, Lits("standing"), SPACE, Some1(Digit), GAP, Last]
  const LIST_LOCKS := [First, Lits("list"), SPACE, Words(["locks", "lock"]), Edge]
  const MY_SAVINGS := [First, Lits("my"), SPACE, Lits("savings"), Edge]

  const PAYEE_CHARS := Either(Of("+"), Either(WORD, Of(".@-")))
  const DOLLARS := Opt(Words(["usdt", "usdc", "usd", "dollars", "dollar"]))
  const OF_EVERY_MONTH := Opt(All([SPACE, Lits("of"), SPACE, Lits("every"), SPACE, Lits("month")]))
  const PERIOD := AnyOf([All([Lits("every"), SPACE, Lits("month")]), Lits("monthly"),
                         All([Lits("on"), SPACE, Lits("the"), SPACE, Lits("first"), OF_EVERY_MONTH]),
                         All([Lits("every"), SPACE, Lits("week")]), Lits("weekly")])
  const STANDING := [AnyOf([Lits("send"), Cat(Words(["standing", "stand"]), Opt(Cat(SPACE, Lits("order"))))]), SPACE, NUMBER, GAP, DOLLARS,
                     SPACE, Lits("to"), SPACE, Some1(PAYEE_CHARS), SPACE, PERIOD]
  const MONTH := Words(["january", "february", "march", "april", "may", "june",
                        "july", "august", "september", "october", "november", "december"])
  const DATE := All([Many(Digit, 4, Some(4)), Lits("-"), Many(Digit, 2, Some(2)), Lits("-"), Many(Digit, 2, Some(2))])
  const LOCK := [Words(["lock", "save"]), SPACE, NUMBER, GAP, DOLLARS, SPACE,
                 Opt(All([Lits("a"), SPACE, Lits("week"), SPACE])), Lits("until"), SPACE, Or(DATE, MONTH)]

  const ATTEST := [First, AnyOf([Cat(Lits("attest"), Opt(Cat(SPACE, Lits("sim")))), All([Lits("sim"), SPACE, Lits("attest")])]), Edge]
  const IDENTITY := [First, Words(["identity", "tier", "limits"]), Edge]
  const REPORT_SIM := [First, AnyOf([All([Lits("report"), SPACE, Lits("sim"), Opt(Cat(SPACE, Lits("change")))]),
                                     All([Lits("sim"), SPACE, Lits("swap")]), All([Lits("port"), SPACE, Lits("alert")])]), Edge]
  const CALLBACK := [First, AnyOf([Lits("callback"), All([Lits("call"), SPACE, Lits("me"), SPACE, Lits("back")]),
                                   All([Lits("verify"), SPACE, Lits("callback")])]), Edge]
  const RECOVER := [First, AnyOf([Cat(Lits("recover"), Opt(Cat(SPACE, Lits("pin")))), All([Lits("forgot"), SPACE, Lits("pin")])]), Edge]
  const RECOVER_LEAD := [First, Lits("recover"), SPACE, Lits("confirm")]
  const RECOVER_CONFIRM := [First, Lits("recover"), SPACE, Lits("confirm"), SPACE, Many(Digit, 4, Some(8)), SPACE, PIN_DIGITS, GAP, Last]
  const CHANGE_PIN := [First, Lits("change"), SPACE, Lits("pin"), SPACE, PIN_DIGITS, SPACE, PIN_DIGITS, GAP, Last]
  const CLAIM := [First, Words(["claim", "name"]), SPACE, One(Letter), Many(Either(Either(Letter, Digit), Of("-")), 1, Some(31)),
                  Opt(Lits(".hotline")), GAP, Last]
  const WHOIS := [First, Words(["whois", "lookup", "resolve"]), SPACE, One(Letter),
                  Many(Either(Either(Letter, Digit), Of(".-")), 1, Some(40)), GAP, Last]
  const VERIFY := [First, Or(Cat(Lits("verify"), Opt(Cat(SPACE, Lits("id")))), Lits("id")), SPACE,
                   Many(Either(Either(Letter, Digit), Of("-")), 4, Some(32)), GAP, Last]
  const JOIN := [Words(["join", "register", "signup", "sign up"]), Opt(Cat(SPACE, Some1(WORD)))]
  const SAVE := [Lits("save"), SPACE, Some1(WORD), SPACE, Some1(Either(Of("+."), WORD))]

  const TOKEN := Cat(Opt(Cat(Lits("circle"), SPACE)),
                     Words(["bitcoin", "btc", "usdc", "usd", "usdt", "eurc", "eur", "euros", "euro", "cirbtc", "circbtc",
                            "dollars", "dollar", "bucks", "buck"]))
  const SWAP := [Words(["swap", "exchange", "convert", "change"]), SPACE, COUNT, SPACE, TOKEN, SPACE,
                 Words(["to", "for", "into"]), SPACE, TOKEN, Edge]
  const SWAP_SHORT := [Words(["swap", "exchange", "convert", "change"]), SPACE, COUNT, SPACE,
                       Words(["to", "for", "into"]), SPACE, TOKEN, Edge]

  const SEND := [
    Words(["send", "transfer", "pay"]), SPACE, NUMBER, GAP,
    Opt(Words(["usdt", "usdc", "usd", "dollars", "dollar", "bucks", "buck"])), SPACE,
    Opt(Cat(Lits("to"), SPACE)),
    Opt(All([Lits("this"), SPACE, Lits("number"), SPACE])),
    Or(Cat(One(Either(Of("+"), Digit)), Many(Either(Digit, Either(Space, Of("().-"))), 6, None)), Some1(PAYEE_CHARS))]

  // ----- first match wins -----

  datatype Test =
    | Hello | Cancel | Confirm | SetPin | SetName | Help | Rate | Topup | Shop | Buy | Balance | Deposit | Contacts | History
    | ShowPolicy | ClearPolicy | ConfirmPolicy | SetPolicy | ListStanding | CancelStanding | ListLocks | Standing | Lock
    | Attest | Identity | ReportSim | Callback | Recover | RecoverConfirm | ChangePin | ClaimName | Whois | Verify | Join | Save | Swap
    | SendOrLater

  predicate Has(parts: seq<Re>, t: string)
    requires parts != []
  {
    Found(All(parts), t)
  }

  /** The first half of the tests, up to the top-up rules; None if none of them matches. */
  function EarlyTest(t: string): Option<Test> {
    if t == "" || Has(HELLO, t) then Some(Hello)
    else if Has(CANCEL, t) then Some(Cancel)
    else if Has(CONFIRM, t) then Some(Confirm)
    else if Has(PIN, t) then Some(SetPin)
    else if Has(NAME, t) then Some(SetName)
    else if Has(HELP, t) then Some(Help)
    else if Has(RATE, t) || Has(DOLLAR_RATE, t) then Some(Rate)
    else if Has(AIRTIME_LEAD, t) || Has(AIRTIME, t) || (Has(TOPUP_WORD, t) && Has(TOPUP_ALT, t)) then Some(Topup)
    else None
  }

  function MoneyTest(t: string): Option<Test> {
    if Has(SHOP, t) then Some(Shop)
    else if Has(BUY, t) then Some(Buy)
    else if Has(BUY_OR_SHOP, t) then Some(Shop)
    else if Has(BALANCE, t) || Has(WHAT_BALANCE, t) || Has(CHECK_BALANCE, t) || Has(HOW_MUCH, t) || Has(HOW_MUCH_MONEY, t) then Some(Balance)
    else if Has(DEPOSIT, t) || Has(WALLET, t) then Some(Deposit)
    else if Has(CONTACTS, t) then Some(Contacts)
    else if Has(HISTORY, t) then Some(History)
    else None
  }

  function RuleTest(t: string): Option<Test> {
    if Has(SHOW_POLICY, t) || Has(MY_RULES, t) then Some(ShowPolicy)
    else if Has(CLEAR_POLICY, t) || Has(REVOKE_RULES, t) then Some(ClearPolicy)
    else if Has(CONFIRM_POLICY, t) then Some(ConfirmPolicy)
    else if Has(SET_POLICY, t) || Has(NEVER_SEND, t) then Some(SetPolicy)
    else if Has(LIST_STANDING, t) || Has(STANDING_ORDERS, t) then Some(ListStanding)
    else if Has(CANCEL_STANDING, t) then Some(CancelStanding)
    else if Has(LIST_LOCKS, t) || Has(MY_SAVINGS, t) then Some(ListLocks)
    else if Has(STANDING, t) then Some(Standing)
    else if Has(LOCK, t) then Some(Lock)
    else None
  }

  function AccountTest(t: string): Option<Test> {
    if Has(ATTEST, t) then Some(Attest)
    else if Has(IDENTITY, t) then Some(Identity)
    else if Has(REPORT_SIM, t) then Some(ReportSim)
    else if Has(CALLBACK, t) then Some(Callback)
    else if Has(RECOVER, t) && !Has(RECOVER_LEAD, t) then Some(Recover)
    else if Has(RECOVER_CONFIRM, t) then Some(RecoverConfirm)
    else if Has(CHANGE_PIN, t) then Some(ChangePin)
    else if Has(CLAIM, t) then Some(ClaimName)
    else if Has(WHOIS, t) then Some(Whois)
    else if Has(VERIFY, t) then Some(Verify)
    else if Has(JOIN, t) then Some(Join)
    else if Has(SAVE, t) then Some(Save)
    else if Has(SWAP, t) || Has(SWAP_SHORT, t) then Some(Swap)
    else None
  }

  /** The first test, in source order, whose expression matches.  (A top-up or swap whose amount or
      tokens turn out to be unusable falls through to later tests in the source; nothing here
      depends on those texts.) */
  function FirstTest(t: string): Test {
    var early := EarlyTest(t);
    if early.Some? then early.value
    else
      var money := MoneyTest(t);
      if money.Some? then money.value
      else
        var rule := RuleTest(t);
        if rule.Some? then rule.value else AccountTest(t).Or(SendOrLater)
  }

  // ----- tests that a text over a small alphabet cannot take -----

  /** A test that needs a rare character does not take a common text. */
  lemma NotTaken(parts: seq<Re>, k: nat, t: string, alphabet: set<char>)
    requires k < |parts| && NeedsRare(parts[k], alphabet) && Within(t, alphabet)
    ensures !Has(parts, t)
  {
    PartNeedsRare(parts, k, alphabet);
    RareIsNotFound(All(parts), t, alphabet);
  }

  /** A test whose k-th part is one rare word, or a choice of rare words. */
  lemma NoWord(parts: seq<Re>, k: nat, w: string, at: nat, t: string, alphabet: set<char>)
    requires k < |parts| && parts[k] == Lits(w) && at < |w| && w[at] !in alphabet && Within(t, alphabet)
    ensures !Has(parts, t)
  {
    RareAt(w, at, alphabet);
    NotTaken(parts, k, t, alphabet);
  }

  lemma NoWords(parts: seq<Re>, k: nat, ws: seq<string>, at: seq<nat>, t: string, alphabet: set<char>)
    requires k < |parts| && ws != [] && parts[k] == Words(ws) && Within(t, alphabet)
    requires |at| == |ws| && forall j | 0 <= j < |ws| :: at[j] < |ws[j]| && ws[j][at[j]] !in alphabet
    ensures !Has(parts, t)
  {
    RareWords(ws, at, alphabet);
    NotTaken(parts, k, t, alphabet);
  }

  lemma {:induction false} OtherWords(ws: seq<string>, t: string)
    requires ws != [] && t != "" && forall k | 0 <= k < |ws| :: ws[k] != "" && ws[k][0] != LowerChar(t[0])
    ensures Ends(Words(ws), t, 0) == []
  {
    if |ws[0]| <= |t| {
      assert Lower(t[0..|ws[0]|])[0] == LowerChar(t[0]);
    }
    if |ws| > 1 {
      OtherWords(ws[1..], t);
    }
  }

  /** An anchored test for words that start with other letters than the text. */
  lemma OtherStart(parts: seq<Re>, ws: seq<string>, t: string)
    requires |parts| >= 2 && parts[0] == First && ws != [] && parts[1] == Words(ws)
    requires t != "" && forall k | 0 <= k < |ws| :: ws[k] != "" && ws[k][0] != LowerChar(t[0])
    ensures !Has(parts, t)
  {
    hide All, Words;
    if Has(parts, t) {
      var i: nat :| i <= |t| && Ends(All(parts), t, i) != [];
      var at := PathOf(parts, t, i, Ends(All(parts), t, i)[0]);
      assert at[1] in Ends(parts[0], t, at[0]);
      assert at[2] in Ends(parts[1], t, at[1]);
      OtherWords(ws, t);
      assert false;
    }
  }

  /** The alphabet lacks the letters by which most tests are told from other texts. */
  predicate Poor(alphabet: set<char>) {
    alphabet !! {'a', 'b', 'g', 'h', 'k', 'l', 'p', 'w', 'x', 'y', '\''}
  }

  lemma NoRate(t: string, alphabet: set<char>)
    requires Within(t, alphabet) && Poor(alphabet)
    ensures !Has(RATE, t)
  {
    hide Within;
    RareAt("rate", 1, alphabet);
    RareAt("dial", 2, alphabet);
    RareAt("fx", 1, alphabet);
    PartNeedsRare([Lits("dial"), GAP, Many(Of("a"), 0, Some(1)), GAP, Lits("rate")], 0, alphabet);
    PartNeedsRare([Lits("reference"), SPACE, Lits("rate")], 2, alphabet);
    PartNeedsRare([Lits("fx"), SPACE, Lits("rate")], 0, alphabet);
    ChoicesNeedRare([Lits("rate"), All([Lits("dial"), GAP, Many(Of("a"), 0, Some(1)), GAP, Lits("rate")]),
                     All([Lits("reference"), SPACE, Lits("rate")]), All([Lits("fx"), SPACE, Lits("rate")])], alphabet);
    NotTaken(RATE, 1, t, alphabet);
  }

  lemma NoTopupAlt(t: string, alphabet: set<char>)
    requires Within(t, alphabet) && Poor(alphabet)
    ensures !Has(TOPUP_ALT, t)
  {
    hide Within;
    RareAt("top", 2, alphabet);
    RareWords(["reload", "recharge"], [2, 3], alphabet);
    PartNeedsRare([Lits("top"), GAP, Lits("up")], 0, alphabet);
    ChoicesNeedRare([TOP_UP, Words(["reload", "recharge"])], alphabet);
    NotTaken(TOPUP_ALT, 0, t, alphabet);
  }

  lemma NoStanding(t: string, alphabet: set<char>)
    requires Within(t, alphabet) && Poor(alphabet)
    ensures !Has(STANDING, t)
  {
    hide Within;
    RareAt("every", 4, alphabet);
    RareAt("monthly", 4, alphabet);
    RareAt("the", 1, alphabet);
    RareAt("weekly", 0, alphabet);
    PartNeedsRare([Lits("every"), SPACE, Lits("month")], 0, alphabet);
    PartNeedsRare([Lits("every"), SPACE, Lits("week")], 0, alphabet);
    PartNeedsRare([Lits("on"), SPACE, Lits("the"), SPACE, Lits("first"), OF_EVERY_MONTH], 2, alphabet);
    ChoicesNeedRare([All([Lits("every"), SPACE, Lits("month")]), Lits("monthly"),
                     All([Lits("on"), SPACE, Lits("the"), SPACE, Lits("first"), OF_EVERY_MONTH]),
                     All([Lits("every"), SPACE, Lits("week")]), Lits("weekly")], alphabet);
    NotTaken(STANDING, 10, t, alphabet);
  }

  lemma NoAttest(t: string, alphabet: set<char>)
    requires Within(t, alphabet) && Poor(alphabet)
    ensures !Has(ATTEST, t)
  {
    hide Within;
    RareAt("attest", 0, alphabet);
    PartNeedsRare([Lits("sim"), SPACE, Lits("attest")], 2, alphabet);
    ChoicesNeedRare([Cat(Lits("attest"), Opt(Cat(SPACE, Lits("sim")))), All([Lits("sim"), SPACE, Lits("attest")])], alphabet);
    NotTaken(ATTEST, 1, t, alphabet);
  }

  lemma NoReportSim(t: string, alphabet: set<char>)
    requires Within(t, alphabet) && Poor(alphabet)
    ensures !Has(REPORT_SIM, t)
  {
    hide Within;
    RareAt("report", 2, alphabet);
    RareAt("swap", 1, alphabet);
    RareAt("port", 0, alphabet);
    PartNeedsRare([Lits("report"), SPACE, Lits("sim"), Opt(Cat(SPACE, Lits("change")))], 0, alphabet);
    PartNeedsRare([Lits("sim"), SPACE, Lits("swap")], 2, alphabet);
    PartNeedsRare([Lits("port"), SPACE, Lits("alert")], 0, alphabet);
    ChoicesNeedRare([All([Lits("report"), SPACE, Lits("sim"), Opt(Cat(SPACE, Lits("change")))]),
                     All([Lits("sim"), SPACE, Lits("swap")]), All([Lits("port"), SPACE, Lits("alert")])], alphabet);
    NotTaken(REPORT_SIM, 1, t, alphabet);
  }

  lemma NoCallback(t: string, alphabet: set<char>)
    requires Within(t, alphabet) && Poor(alphabet)
    ensures !Has(CALLBACK, t)
  {
    hide Within;
    RareAt("callback", 1, alphabet);
    RareAt("call", 1, alphabet);
    RareAt("verify", 5, alphabet);
    PartNeedsRare([Lits("call"), SPACE, Lits("me"), SPACE, Lits("back")], 0, alphabet);
    PartNeedsRare([Lits("verify"), SPACE, Lits("callback")], 0, alphabet);
    ChoicesNeedRare([Lits("callback"), All([Lits("call"), SPACE, Lits("me"), SPACE, Lits("back")]),
                     All([Lits("verify"), SPACE, Lits("callback")])], alphabet);
    NotTaken(CALLBACK, 1, t, alphabet);
  }

  /** Of the early tests only cancel and confirm have words over such an alphabet. */
  lemma NoEarlyTest(t: string, alphabet: set<char>)
    requires Within(t, alphabet) && Poor(alphabet) && t != "" && !Has(CANCEL, t) && !Has(CONFIRM, t)
    ensures EarlyTest(t) == None
  {
    hide Within, NeedsRare, Has, Words, All, AnyOf;
    NoWords(HELLO, 1, ["hi", "hello", "hey", "start"], [0, 0, 0, 2], t, alphabet);
    NoWords(PIN, 0, ["pin", "set pin"], [0, 4], t, alphabet);
    NoWords(NAME, 0, ["my name is", "i'm", "i am", "call me", "this is"], [1, 1, 2, 1, 1], t, alphabet);
    NoWords(HELP, 1, ["help", "commands"], [0, 4], t, alphabet);
    NoRate(t, alphabet);
    NoWord(DOLLAR_RATE, 5, "rate", 1, t, alphabet);
    NoWord(AIRTIME_LEAD, 1, "airtime", 0, t, alphabet);
    NoWord(AIRTIME, 6, "airtime", 0, t, alphabet);
    NoTopupAlt(t, alphabet);
  }

  /** Of the money tests only buy has a word over such an alphabet, "order". */
  lemma NoMoneyTest(t: string, alphabet: set<char>)
    requires Within(t, alphabet) && Poor(alphabet) && !Has(BUY, t)
    ensures MoneyTest(t) == None
  {
    hide Within, NeedsRare, Has, Words, All, AnyOf;
    NoWord(SHOP, 1, "shop", 1, t, alphabet);
    NoWords(BUY_OR_SHOP, 1, ["buy", "shop"], [0, 1], t, alphabet);
    NoWord(BALANCE, 2, "balance", 0, t, alphabet);
    NoWord(WHAT_BALANCE, 0, "what", 0, t, alphabet);
    NoWord(CHECK_BALANCE, 0, "check", 1, t, alphabet);
    NoWord(HOW_MUCH, 0, "how much", 0, t, alphabet);
    NoWord(HOW_MUCH_MONEY, 0, "how", 0, t, alphabet);
    NoWord(DEPOSIT, 1, "deposit", 2, t, alphabet);
    NoWord(WALLET, 0, "wallet address", 0, t, alphabet);
    NoWord(CONTACTS, 1, "contacts", 4, t, alphabet);
    NoWords(HISTORY, 1, ["history", "ledger", "txs", "tx", "transactions"], [0, 0, 1, 1, 2], t, alphabet);
  }

  /** Of the rule tests only "never send" has words over such an alphabet. */
  lemma NoRuleTest(t: string, alphabet: set<char>)
    requires Within(t, alphabet) && Poor(alphabet) && !Has(NEVER_SEND, t)
    ensures RuleTest(t) == None
  {
    hide Within, NeedsRare, Has, Words, All, AnyOf;
    NoWord(SHOW_POLICY, 1, "show", 1, t, alphabet);
    NoWord(MY_RULES, 1, "my", 1, t, alphabet);
    NoWord(CLEAR_POLICY, 1, "clear", 1, t, alphabet);
    NoWord(REVOKE_RULES, 1, "revoke", 4, t, alphabet);
    NoWord(CONFIRM_POLICY, 3, "policy", 0, t, alphabet);
    NoWords(SET_POLICY, 1, ["policy", "rule"], [0, 2], t, alphabet);
    NoWord(LIST_STANDING, 1, "list", 0, t, alphabet);
    NoWord(STANDING_ORDERS, 1, "standing", 2, t, alphabet);
    NoWord(CANCEL_STANDING, 1, "cancel", 1, t, alphabet);
    NoWord(LIST_LOCKS, 1, "list", 0, t, alphabet);
    NoWord(MY_SAVINGS, 1, "my", 1, t, alphabet);
    NoStanding(t, alphabet);
    NoWords(LOCK, 0, ["lock", "save"], [0, 1], t, alphabet);
  }

  // ----- three tests that can never be first -----

  lemma FoundAt(r: Re, t: string, i: nat)
    requires i <= |t| && Ends(r, t, i) != []
    ensures Found(r, t)
  {
  }

  lemma MoreWasLess(cls: Class, t: string, i: nat, e: nat)
    requires i <= |t| && e in Ends(Some1(cls), t, i)
    ensures e in Ends(Star(cls), t, i)
  {
  }

  /** A list of parts matches from position to position. */
  ghost predicate Path(parts: seq<Re>, t: string, at: seq<nat>) {
    && |at| == |parts| + 1 && (forall k | 0 <= k < |at| :: at[k] <= |t|)
    && forall k | 0 <= k < |parts| :: at[k + 1] in Ends(parts[k], t, at[k])
  }

  lemma {:induction false} PathOf(parts: seq<Re>, t: string, i: nat, e: nat) returns (at: seq<nat>)
    requires parts != [] && i <= |t| && e in Ends(All(parts), t, i)
    ensures Path(parts, t, at) && at[0] == i && at[|parts|] == e
  {
    if |parts| == 1 {
      at := [i, e];
    } else {
      CatMembers(parts[0], All(parts[1..]), t, i, e);
      var m :| m in Ends(parts[0], t, i) && e in Ends(All(parts[1..]), t, m);
      var rest := PathOf(parts[1..], t, m, e);
      at := [i] + rest;
      forall k | 0 <= k < |parts| ensures at[k + 1] in Ends(parts[k], t, at[k]) {
        if k > 0 {
          assert parts[1..][k - 1] == parts[k];
        }
      }
    }
  }

  lemma {:induction false} PathIsMatch(parts: seq<Re>, t: string, at: seq<nat>)
    requires parts != [] && Path(parts, t, at)
    ensures at[|parts|] in Ends(All(parts), t, at[0])
  {
    if |parts| > 1 {
      forall k | 0 <= k < |parts| - 1 ensures at[1..][k + 1] in Ends(parts[1..][k], t, at[1..][k]) {
        assert parts[1..][k] == parts[k + 1];
        assert at[k + 2] in Ends(parts[k + 1], t, at[k + 1]);
      }
      PathIsMatch(parts[1..], t, at[1..]);
      CatMembers(parts[0], All(parts[1..]), t, at[0], at[|parts|]);
    }
  }

  lemma FirstWord(w: string, ws: seq<string>, t: string, i: nat, e: nat)
    requires i <= |t| && e in Ends(Lits(w), t, i)
    ensures e in Ends(Words([w] + ws), t, i)
  {
    assert ([w] + ws)[1..] == ws;
  }

  lemma NothingIsFine(cls: Class, max: Option<nat>, t: string, i: nat)
    requires i <= |t|
    ensures i in Ends(Many(cls, 0, max), t, i)
  {
  }

  lemma WordChars(ch: char)
    ensures WORD.Has(ch) <==> IsLetter(LowerChar(ch)) || IsDigit(ch) || LowerChar(ch) == '_'
  {
    assert Either(Letter, Digit).Has(ch) <==> IsLetter(LowerChar(ch)) || IsDigit(ch);
    assert Of("_").Has(ch) <==> LowerChar(ch) == '_';
  }

  /** A word followed by a space ends at a word boundary. */
  lemma WordThenSpace(w: string, t: string, i: nat, j: nat, k: nat)
    requires w != "" && IsLetter(w[|w| - 1]) && i <= |t| && j in Ends(Lits(w), t, i) && k in Ends(SPACE, t, j)
    ensures j in Ends(Edge, t, j)
  {
    assert Lower(t[i..i + |w|])[|w| - 1] == LowerChar(t[j - 1]);
    assert RunLength(Space, t, j, None) >= 1;
    assert Space.Has(t[j]);
    WordChars(t[j]);
    WordChars(t[j - 1]);
  }

  /** Any text that matches the change-PIN test contains "pin" and digits. */
  lemma ChangePinHasPin(t: string)
    requires Has(CHANGE_PIN, t)
    ensures Has(PIN, t)
  {
    hide Ends, All, Words;
    var i: nat :| i <= |t| && Ends(All(CHANGE_PIN), t, i) != [];
    var e := Ends(All(CHANGE_PIN), t, i)[0];
    var at := PathOf(CHANGE_PIN, t, i, e);
    assert at[4] in Ends(CHANGE_PIN[3], t, at[3]);
    assert at[5] in Ends(CHANGE_PIN[4], t, at[4]);
    assert at[6] in Ends(CHANGE_PIN[5], t, at[5]);
    FirstWord("pin", ["set pin"], t, at[3], at[4]);
    assert ["pin"] + ["set pin"] == ["pin", "set pin"];
    MoreWasLess(Space, t, at[4], at[5]);
    NothingIsFine(Of(":="), Some(1), t, at[5]);
    NothingIsFine(Space, None, t, at[5]);
    var path := [at[3], at[4], at[5], at[5], at[5], at[6]];
    assert Path(PIN, t, path);
    PathIsMatch(PIN, t, path);
    FoundAt(All(PIN), t, at[3]);
  }

  /** A text that starts with a test's first word, then a space, passes a test for that word. */
  lemma LeadingWord(w: string, ws: seq<string>, parts: seq<Re>, t: string)
    requires w != "" && IsLetter(w[|w| - 1]) && |parts| >= 3 && parts[0] == First && parts[1] == Lits(w) && parts[2] == SPACE
    requires Has(parts, t)
    ensures exists i: nat, j: nat :: j <= |t| && i <= j && i in Ends(First, t, i) && j in Ends(Words([w] + ws), t, i) && j in Ends(Edge, t, j)
  {
    hide All, Words;
    var i: nat :| i <= |t| && Ends(All(parts), t, i) != [];
    var at := PathOf(parts, t, i, Ends(All(parts), t, i)[0]);
    assert at[1] in Ends(parts[0], t, at[0]);
    assert at[2] in Ends(parts[1], t, at[1]);
    assert at[3] in Ends(parts[2], t, at[2]);
    FirstWord(w, ws, t, at[1], at[2]);
    WordThenSpace(w, t, at[1], at[2], at[3]);
  }

  lemma ConfirmPolicyHasConfirm(t: string)
    requires Has(CONFIRM_POLICY, t)
    ensures Has(CONFIRM, t)
  {
    hide All, Words, Ends;
    LeadingWord("confirm", ["yes", "y", "ok", "okay"], CONFIRM_POLICY, t);
    assert ["confirm"] + ["yes", "y", "ok", "okay"] == ["confirm", "yes", "y", "ok", "okay"];
    var i: nat, j: nat :| j <= |t| && i <= j && i in Ends(First, t, i) && j in Ends(CONFIRM[1], t, i) && j in Ends(Edge, t, j);
    OptIsFine(Cat(SPACE, PIN_DIGITS), t, j);
    assert Path(CONFIRM, t, [i, i, j, j, j]);
    PathIsMatch(CONFIRM, t, [i, i, j, j, j]);
    FoundAt(All(CONFIRM), t, i);
  }

  lemma OptIsFine(r: Re, t: string, i: nat)
    requires i <= |t|
    ensures i in Ends(Opt(r), t, i)
  {
  }

  lemma CancelStandingHasCancel(t: string)
    requires Has(CANCEL_STANDING, t)
    ensures Has(CANCEL, t)
  {
    hide All, Words, Ends;
    LeadingWord("cancel", ["no", "stop"], CANCEL_STANDING, t);
    assert ["cancel"] + ["no", "stop"] == ["cancel", "no", "stop"];
    var i: nat, j: nat :| j <= |t| && i <= j && i in Ends(First, t, i) && j in Ends(CANCEL[1], t, i) && j in Ends(Edge, t, j);
    assert Path(CANCEL, t, [i, i, j, j]);
    PathIsMatch(CANCEL, t, [i, i, j, j]);
    FoundAt(All(CANCEL), t, i);
  }

  lemma EarlyTestTakes(t: string)
    requires Has(PIN, t) || Has(CONFIRM, t) || Has(CANCEL, t)
    ensures EarlyTest(t).Some?
  {
    hide Has;
  }

  lemma EarlyTestIsNoneOfThem(t: string)
    ensures EarlyTest(t) != Some(ChangePin) && EarlyTest(t) != Some(ConfirmPolicy) && EarlyTest(t) != Some(CancelStanding)
    ensures MoneyTest(t) != Some(ChangePin) && MoneyTest(t) != Some(ConfirmPolicy) && MoneyTest(t) != Some(CancelStanding)
  {
    hide Has;
  }

  lemma RuleTestMeans(t: string)
    ensures RuleTest(t) == Some(ConfirmPolicy) ==> Has(CONFIRM_POLICY, t)
    ensures RuleTest(t) == Some(CancelStanding) ==> Has(CANCEL_STANDING, t)
    ensures RuleTest(t) != Some(ChangePin)
  {
    hide Has;
  }

  lemma AccountTestMeans(t: string)
    ensures AccountTest(t) == Some(ChangePin) ==> Has(CHANGE_PIN, t)
    ensures AccountTest(t) != Some(ConfirmPolicy) && AccountTest(t) != Some(CancelStanding)
  {
    hide Has;
  }

  /** Three tests can never be the first to match, so no text reaches their branches: "change pin 1234
      5678" contains "pin 1234", "confirm policy" starts with confirm, "cancel standing 3" with cancel. */
  lemma ThreeTestsAreUnreachable(t: string)
    ensures FirstTest(t) != ChangePin && FirstTest(t) != ConfirmPolicy && FirstTest(t) != CancelStanding
  {
    hide EarlyTest, MoneyTest, RuleTest, AccountTest, Has;
    EarlyTestIsNoneOfThem(t);
    RuleTestMeans(t);
    AccountTestMeans(t);
    if FirstTest(t) == ChangePin {
      ChangePinHasPin(t);
      EarlyTestTakes(t);
      assert false;
    }
    if FirstTest(t) == ConfirmPolicy {
      ConfirmPolicyHasConfirm(t);
      EarlyTestTakes(t);
      assert false;
    }
    if FirstTest(t) == CancelStanding {
      CancelStandingHasCancel(t);
      EarlyTestTakes(t);
      assert false;
    }
  }
}
