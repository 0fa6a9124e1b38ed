/** The tables every handler of the orchestrator runs on (orchestrator/src/lib/db.ts) together
    with the USDC wallets (orchestrator/src/lib/wallets.ts).

    `State` is the value of all tables at one moment, with one function per database operation.
    `Desk` is the object the handlers update in place; each of its methods is proved to take
    the tables to exactly what the function of the same purpose says.

    Money is counted in whole micro-USDC (transfers are rounded to six decimals), time in
    milliseconds since 1970, and a UTC day is `at / DAY_MS`. */
module Tables {
  import opened Text

  type Phone = string
  type Key = nat

  const DAY_MS: nat := 86_400_000

  function DayOf(at: nat): nat {
    at / DAY_MS
  }

  // ----- rows -----

  /** Identity tiers: none, national id, attested SIM. */
  type TierLevel = n: nat | n <= 2

  datatype Recovery = Recovery(code: string, expires: nat)

  datatype User = User(
    name: Option<string>,
    pin: Option<string>,
    fails: nat,
    lockedUntil: Option<nat>,
    tier: TierLevel,
    riskUntil: Option<nat>,
    callbackUntil: Option<nat>,
    recovery: Option<Recovery>,
    hotlineName: Option<string>)

  const NEW_USER := User(None, None, 0, None, 0, None, None, None, None)

  /** `isOnboarded` outside demo mode: a name and a PIN. */
  predicate Onboarded(u: User) {
    u.name.Some? && u.pin.Some?
  }

  /** `isPinLocked`. */
  predicate PinLocked(u: User, now: nat) {
    u.lockedUntil.Some? && u.lockedUntil.value > now
  }

  /** `verifyPin`, the hash comparison seen as equality. */
  predicate PinMatches(u: User, pin: string) {
    u.pin == Some(pin)
  }

  datatype Kind =
    | Send | Receive | EscrowHold | EscrowClaim | EscrowRefund
    | Swap | Airtime | SavingsLock | Nanopay

  datatype LedgerRow = LedgerRow(phone: Phone, kind: Kind, amount: nat, counterparty: Option<string>, at: nat)

  datatype ClaimStatus = Held | Claimed | Refunded | Expired

  datatype Claim = Claim(from: Phone, to: Phone, amount: nat, status: ClaimStatus, expires: nat, created: nat)

  datatype RuleKind = MaxNewPayee | MaxPerTx | DenyLabel

  datatype FrozenRule = FrozenRule(kind: RuleKind, maxUsdc: Option<nat>, party: Option<string>)

  datatype RuleRow = RuleRow(phone: Phone, rule: FrozenRule, active: bool)

  datatype LockRow = LockRow(phone: Phone, amount: nat, unlockAt: nat, active: bool)

  datatype Cadence = Monthly | Weekly

  datatype StandingOrder = StandingOrder(
    phone: Phone, amount: nat, toLabel: string, toPhone: Option<Phone>, toAddress: Option<string>,
    cadence: Cadence, nextRun: nat, active: bool)

  datatype Contact = Contact(phone: Option<Phone>, address: Option<string>)

  /** `account_links`: the phone of each chat, by channel. */
  type Links = map<(string, string), Phone>

  datatype Token = USDC | EURC | CIRBTC

  /** The one pending slot of a phone. */
  datatype Pending =
    | AwaitingName
    | PSend(amount: nat, toLabel: string, toAddress: Option<string>, toPhone: Option<Phone>, pendingClaim: bool, key: Key, memo: string)
    | PSwap(amount: nat, tokenIn: Token, tokenOut: Token, key: Key)
    | PTopup(charge: nat, msisdn: Phone, key: Key)
    | PPolicy(rules: seq<FrozenRule>)
    | PStanding(amount: nat, toLabel: string, toPhone: Option<Phone>, toAddress: Option<string>, cadence: Cadence)
    | PLock(amount: nat, unlockAt: nat)
    | PShop

  /** What a handler answers.  `NeedsPin` and `WrongPin` are the answers that ask for a PIN. */
  datatype Reply =
    | NeedsName | NeedsSetPin | Greeting | Noted
    | NeedsPin | WrongPin | PinLockedOut | PinJustLocked
    | NothingPending | Cancelled | UnknownPayee | NeedsCallback | Refused
    | Sent(amount: nat, to: string) | HeldFor(amount: nat, claim: nat)
    | Swapped(amount: nat, got: nat) | ToppedUp(charge: nat)
    | InProgress | CouldNot
    | RulesFrozen(rules: seq<FrozenRule>) | OrderOpened(id: nat) | LockOpened(id: nat)
    | PinReady(released: nat)

  /** A row of `idempotency`: claimed but unfinished, or the saved answer. */
  datatype IdemRow = InFlight | Completed(result: Reply)

  /** How an on-chain transfer ends for its caller: landed, thrown with nothing moved, or
      thrown although the money moved (a receipt that timed out).  `fee` is gas paid in USDC. */
  datatype Outcome = Landed(fee: nat) | Threw(fee: nat) | LandedButThrew(fee: nat)

  /** The wallet address of a phone: wallets are minted once and never shared. */
  function WalletOf(p: Phone): string {
    "wallet:" + p
  }

  lemma WalletsDiffer(p: Phone, q: Phone)
    requires p != q
    ensures WalletOf(p) != WalletOf(q)
  {
    assert p == WalletOf(p)[7..];
    assert q == WalletOf(q)[7..];
  }

  // ----- sums over tables; each row list grows at its end -----

  /** Ledger total of one kind on one UTC day (`sumLedgerToday`). */
  function SumKind(rows: seq<LedgerRow>, p: Phone, kind: Kind, day: nat): nat {
    if |rows| == 0 then 0
    else
      var r := rows[|rows| - 1];
      SumKind(rows[..|rows| - 1], p, kind, day)
      + if r.phone == p && r.kind == kind && DayOf(r.at) == day then r.amount else 0
  }

  /** Everything p ever sent or put in escrow for one counterparty (`sumLedgerKindToCounterparty`). */
  function SumTo(rows: seq<LedgerRow>, p: Phone, to: string): nat {
    if |rows| == 0 then 0
    else
      var r := rows[|rows| - 1];
      SumTo(rows[..|rows| - 1], p, to)
      + if r.phone == p && (r.kind == Send || r.kind == EscrowHold) && r.counterparty == Some(to) then r.amount else 0
  }

  /** Active locks of p that are still closed at time t (`sumActiveSavingsLocked`). */
  function SumLocked(rows: seq<LockRow>, p: Phone, t: nat): nat {
    if |rows| == 0 then 0
    else
      var r := rows[|rows| - 1];
      SumLocked(rows[..|rows| - 1], p, t)
      + if r.phone == p && r.active && r.unlockAt > t then r.amount else 0
  }

  function ReleaseRows(rows: seq<LockRow>, p: Phone, now: nat): (out: seq<LockRow>)
    ensures |out| == |rows|
  {
    if |rows| == 0 then []
    else
      var r := rows[|rows| - 1];
      ReleaseRows(rows[..|rows| - 1], p, now)
      + [if r.phone == p && r.active && r.unlockAt <= now then r.(active := false) else r]
  }

  function RevokeRows(rows: seq<RuleRow>, p: Phone): (out: seq<RuleRow>)
    ensures |out| == |rows|
  {
    if |rows| == 0 then []
    else
      var r := rows[|rows| - 1];
      RevokeRows(rows[..|rows| - 1], p) + [if r.phone == p then r.(active := false) else r]
  }

  /** The rules in force for p, oldest first (`getActiveUserRules`). */
  function ActiveRules(rows: seq<RuleRow>, p: Phone): seq<FrozenRule> {
    if |rows| == 0 then []
    else
      var r := rows[|rows| - 1];
      ActiveRules(rows[..|rows| - 1], p) + if r.phone == p && r.active then [r.rule] else []
  }

  /** Claims p opened on one UTC day, whatever became of them (`sumPendingClaimsToday`). */
  function ClaimsOpened(rows: seq<Claim>, p: Phone, day: nat): nat {
    if |rows| == 0 then 0
    else
      var r := rows[|rows| - 1];
      ClaimsOpened(rows[..|rows| - 1], p, day) + if r.from == p && DayOf(r.created) == day then 1 else 0
  }

  function Min(a: int, b: int): int {
    if a <= b then a else b
  }

  function Max(a: int, b: int): int {
    if a >= b then a else b
  }

  // ----- the tables as one value -----

  datatype State = State(
    users: map<Phone, User>,
    sessions: map<Phone, Pending>,
    idem: map<Key, IdemRow>,
    ledger: seq<LedgerRow>,
    claims: seq<Claim>,
    rules: seq<RuleRow>,
    locks: seq<LockRow>,
    orders: seq<StandingOrder>,
    contacts: map<(Phone, string), Contact>,
    names: map<string, Phone>,
    links: Links,
    balance: map<string, nat>,
    nextKey: Key)
  {
    function BalanceAt(address: string): nat {
      if address in balance then balance[address] else 0
    }

    function Bal(p: Phone): nat {
      BalanceAt(WalletOf(p))
    }

    function Locked(p: Phone, t: nat): nat {
      SumLocked(locks, p, t)
    }

    /** `availableUsdc(...).available`. */
    function Available(p: Phone, t: nat): nat {
      Max(0, Bal(p) - Locked(p, t))
    }

    function Spent(p: Phone, kind: Kind, day: nat): nat {
      SumKind(ledger, p, kind, day)
    }

    /** `hasPaidBefore`. */
    predicate HasPaid(p: Phone, to: string) {
      SumTo(ledger, p, to) > 0
    }

    function Rules(p: Phone): seq<FrozenRule> {
      ActiveRules(rules, p)
    }

    function Tier(p: Phone): nat {
      if p in users then users[p].tier else 0
    }

    /** `setPending`. */
    function PutPending(p: Phone, pending: Option<Pending>): State {
      this.(sessions := if pending.Some? then sessions[p := pending.value] else sessions - {p})
    }

    /** `addLedger`. */
    function AddRow(row: LedgerRow): State {
      this.(ledger := ledger + [row])
    }

    /** `ensureWallet(phone)`. */
    function WithUser(p: Phone): State {
      if p in users then this else this.(users := users[p := NEW_USER])
    }

    function PutUser(p: Phone, u: User): State {
      this.(users := users[p := u])
    }

    /** `recordPinFailure`: one more failure; at the limit the account locks. */
    function FailPin(p: Phone, now: nat, maxFails: nat, lockMs: nat): State
      requires p in users
    {
      var n := users[p].fails + 1;
      PutUser(p, users[p].(fails := n, lockedUntil := if n >= maxFails then Some(now + lockMs) else None))
    }

    /** `clearPinFailures`. */
    function ClearFails(p: Phone): State
      requires p in users
    {
      PutUser(p, users[p].(fails := 0, lockedUntil := None))
    }

    /** `setPin`. */
    function PutPin(p: Phone, pin: string): State
      requires p in users
    {
      PutUser(p, users[p].(pin := Some(pin), fails := 0, lockedUntil := None))
    }

    /** `releaseMaturedLocks`. */
    function ReleaseMatured(p: Phone, now: nat): State {
      this.(locks := ReleaseRows(locks, p, now))
    }

    /** One USDC transfer out of a user's wallet (`transferUsdc`).  It throws when the sender is
        unknown or cannot cover amount and gas; a failed attempt still burns gas. */
    function Transfer(from: Phone, to: string, amount: nat, o: Outcome): (State, bool) {
      if from !in users then (this, false)
      else if o.Threw? || amount + o.fee > Bal(from) then
        (Credit(WalletOf(from), -Min(o.fee, Bal(from))), false)
      else
        (Credit(WalletOf(from), -(amount + o.fee)).Credit(to, amount), o.Landed?)
    }

    function Credit(address: string, amount: int): State
      requires BalanceAt(address) + amount >= 0
    {
      this.(balance := balance[address := BalanceAt(address) + amount])
    }
  }

  lemma CreditIsExact(s: State, address: string, amount: int)
    requires s.BalanceAt(address) + amount >= 0
    ensures var t := s.Credit(address, amount);
            t == s.(balance := t.balance) && forall a :: t.BalanceAt(a) == s.BalanceAt(a) + if a == address then amount else 0
  {
  }

  /** A transfer only changes balances, and only a known sender's transfer can land. */
  lemma TransferShape(s: State, from: Phone, to: string, amount: nat, o: Outcome)
    ensures var (t, ok) := s.Transfer(from, to, amount, o); t == s.(balance := t.balance) && (ok ==> from in s.users)
  {
  }

  const EMPTY := State(map[], map[], map[], [], [], [], [], [], map[], map[], map[], map[], 0)

  // ----- the object the handlers update -----

  class Desk {
    var users: map<Phone, User>
    var sessions: map<Phone, Pending>
    var idem: map<Key, IdemRow>
    var ledger: seq<LedgerRow>
    var claims: seq<Claim>
    var rules: seq<RuleRow>
    var locks: seq<LockRow>
    var orders: seq<StandingOrder>
    var contacts: map<(Phone, string), Contact>
    var names: map<string, Phone>
    var links: Links
    var balance: map<string, nat>
    var nextKey: Key

    /** The value of all tables. */
    function Now(): State
      reads this
    {
      State(users, sessions, idem, ledger, claims, rules, locks, orders, contacts, names, links, balance, nextKey)
    }

    constructor ()
      ensures Now() == EMPTY
    {
      users, sessions, idem, ledger := map[], map[], map[], [];
      claims, rules, locks, orders := [], [], [], [];
      contacts, names, links, balance, nextKey := map[], map[], map[], map[], 0;
    }

    method SetPending(p: Phone, pending: Option<Pending>)
      modifies this
      ensures Now() == old(Now()).PutPending(p, pending)
    {
      sessions := if pending.Some? then sessions[p := pending.value] else sessions - {p};
    }

    method AddLedger(row: LedgerRow)
      modifies this
      ensures Now() == old(Now()).AddRow(row)
    {
      ledger := ledger + [row];
    }

    method EnsureWallet(p: Phone)
      modifies this
      ensures Now() == old(Now()).WithUser(p)
    {
      if p !in users {
        users := users[p := NEW_USER];
      }
    }

    method SetUser(p: Phone, u: User)
      modifies this
      ensures Now() == old(Now()).PutUser(p, u)
    {
      users := users[p := u];
    }

    method RecordPinFailure(p: Phone, now: nat, maxFails: nat, lockMs: nat)
      requires p in users
      modifies this
      ensures Now() == old(Now()).FailPin(p, now, maxFails, lockMs)
    {
      var n := users[p].fails + 1;
      var locked := if n >= maxFails then Some(now + lockMs) else None;
      users := users[p := users[p].(fails := n, lockedUntil := locked)];
    }

    method ClearPinFailures(p: Phone)
      requires p in users
      modifies this
      ensures Now() == old(Now()).ClearFails(p)
    {
      users := users[p := users[p].(fails := 0, lockedUntil := None)];
    }

    method SetPin(p: Phone, pin: string)
      requires p in users
      modifies this
      ensures Now() == old(Now()).PutPin(p, pin)
    {
      users := users[p := users[p].(pin := Some(pin), fails := 0, lockedUntil := None)];
    }

    /** `claimIdempotency`: insert the marker if the key is new; otherwise report what is there. */
    method ClaimIdempotency(key: Key) returns (found: Option<IdemRow>)
      modifies this
      ensures key in old(idem) ==> found == Some(old(idem)[key]) && Now() == old(Now())
      ensures key !in old(idem) ==> found == None && Now() == old(Now()).(idem := old(idem)[key := InFlight])
    {
      if key in idem {
        found := Some(idem[key]);
      } else {
        idem := idem[key := InFlight];
        found := None;
      }
    }

    method SaveIdempotentResult(key: Key, result: Reply)
      modifies this
      ensures Now() == old(Now()).(idem := old(idem)[key := Completed(result)])
    {
      idem := idem[key := Completed(result)];
    }

    /** A fresh idempotency key (`randomUUID`). */
    method FreshKey() returns (key: Key)
      modifies this
      ensures key == old(nextKey) && Now() == old(Now()).(nextKey := old(nextKey) + 1)
    {
      key := nextKey;
      nextKey := nextKey + 1;
    }

    method ReleaseMaturedLocks(p: Phone, now: nat)
      modifies this
      ensures Now() == old(Now()).ReleaseMatured(p, now)
    {
      locks := ReleaseRows(locks, p, now);
    }

    method TransferUsdc(from: Phone, to: string, amount: nat, o: Outcome) returns (ok: bool)
      modifies this
      ensures (Now(), ok) == old(Now()).Transfer(from, to, amount, o)
    {
      if from !in users {
        return false;
      }
      var b := if WalletOf(from) in balance then balance[WalletOf(from)] else 0;
      if o.Threw? || amount + o.fee > b {
        balance := balance[WalletOf(from) := b - (if o.fee <= b then o.fee else b)];
        return false;
      }
      balance := balance[WalletOf(from) := b - amount - o.fee];
      balance := balance[to := (if to in balance then balance[to] else 0) + amount];
      ok := o.Landed?;
    }
  }
}
