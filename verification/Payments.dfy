/** What paying an order does to the payer: the money that can leave, the one ledger row it books
    and the key it uses up. */
module Payments {
  import opened Text
  import opened Tables
  import opened Settings
  import opened Pipeline
  import opened Effects
  import Claims

  /** USDC that leaves the wallet when the order is paid. */
  function Cost(m: Pending): nat {
    match m
    case PSend(amount, _, _, _, _, _, _) => amount
    case PSwap(amount, tokenIn, _, _) => if tokenIn == USDC then amount else 0
    case PTopup(charge, _, _) => charge
    case _ => 0
  }

  /** The gas a transfer of p can burn: its fee, as far as the wallet covers it. */
  function Gas(s: State, p: Phone, o: Outcome): nat {
    Min(o.fee, s.Bal(p))
  }

  /** The transfer moves nothing: it throws, or the wallet does not cover amount and gas. */
  predicate Fails(s: State, p: Phone, amount: nat, o: Outcome) {
    o.Threw? || amount + o.fee > s.Bal(p)
  }

  /** What a transfer takes out of the wallet of p. */
  function Debit(s: State, p: Phone, amount: nat, o: Outcome): nat {
    if Fails(s, p, amount, o) then Gas(s, p, o) else amount + o.fee
  }

  /** What comes back when an undelivered top-up is refunded. */
  function RefundOf(c: Config, s: State, p: Phone, charge: nat, env: Env): nat {
    if Fails(s, p, charge, env.outcome) || !env.outcome.Landed? || env.delivered then 0
    else if env.refund.Threw? || env.refund.fee > s.Bal(c.sink) then 0
    else charge
  }

  /** A transfer costs its sender at most the amount and the gas. */
  lemma TransferCost(s: State, p: Phone, to: string, amount: nat, o: Outcome)
    ensures s.Transfer(p, to, amount, o).0.Bal(p) + amount + Gas(s, p, o) >= s.Bal(p)
  {
  }

  /** The outflow row that paying an order books. */
  function BookedRow(p: Phone, m: Pending, now: nat): LedgerRow
    requires Money(m)
  {
    match m
    case PSend(amount, _, toAddress, toPhone, pendingClaim, _, _) =>
      LedgerRow(p, if pendingClaim && toPhone.Some? then EscrowHold else Send, amount, Some(toPhone.Or(toAddress.Or(""))), now)
    case PSwap(_, _, _, _) => LedgerRow(p, Swap, Cost(m), None, now)
    case PTopup(charge, msisdn, _) => LedgerRow(p, Airtime, charge, Some(msisdn), now)
  }

  /** Paying an order books its row once, with the payee's mirror row if the payee is a phone, or
      nothing at all. */
  ghost predicate Books(s: State, t: State, now: nat, p: Phone, m: Pending)
    requires Money(m)
  {
    || t.ledger == s.ledger
    || t.ledger == s.ledger + [BookedRow(p, m, now)]
    || (m.PSend? && m.toPhone.Some?
        && t.ledger == s.ledger + [BookedRow(p, m, now)] + [LedgerRow(m.toPhone.value, Receive, m.amount, Some(p), now)])
  }

  /** What paying an order leaves behind: at most its cost and gas are gone, its key is used up, and
      the slot is empty or still holds the used-up order. */
  ghost predicate Spent(s: State, t: State, now: nat, p: Phone, m: Pending, fee: nat)
    requires Money(m)
  {
    && t.Bal(p) + Cost(m) + fee >= s.Bal(p)
    && KeyOf(m) in t.idem && s.idem.Keys <= t.idem.Keys && t.nextKey == s.nextKey
    && (forall key | key in t.idem && key !in s.idem :: key == KeyOf(m))
    && (p in s.users ==> p in t.users && t.users[p] == s.users[p])
    && t.locks == s.locks && t.rules == s.rules
    && (p in t.sessions ==> p in s.sessions && t.sessions[p] == s.sessions[p])
    && Books(s, t, now, p, m)
  }

  /** Booking rows and closing the order after the money moved. */
  lemma BookingSpends(s: State, s2: State, t: State, now: nat, p: Phone, m: Pending, fee: nat)
    requires Money(m) && KeyOf(m) in s2.idem && s.idem.Keys <= s2.idem.Keys
    requires forall key | key in s2.idem && key !in s.idem :: key == KeyOf(m)
    requires s2 == s.(balance := s2.balance, idem := s2.idem, users := s2.users, claims := s2.claims, ledger := s2.ledger)
    requires s2.Bal(p) + Cost(m) + fee >= s.Bal(p)
    requires p in s.users ==> p in s2.users && s2.users[p] == s.users[p]
    requires t == s2.(ledger := t.ledger, idem := t.idem, sessions := t.sessions)
    requires t.idem.Keys == s2.idem.Keys
    requires t.sessions == s2.sessions || t.sessions == s2.sessions - {p}
    requires Books(s, t, now, p, m)
    ensures Spent(s, t, now, p, m, fee)
  {
  }

  /** What a hold leaves: at most amount and gas are gone, and its one row may have been added. */
  ghost predicate HoldShape(s: State, t: State, p: Phone, amount: nat, fee: nat, row: LedgerRow) {
    && t.Bal(p) + amount + fee >= s.Bal(p)
    && t == s.(balance := t.balance, users := t.users, claims := t.claims, ledger := t.ledger)
    && (p in s.users ==> p in t.users && t.users[p] == s.users[p])
    && (t.ledger == s.ledger || t.ledger == s.ledger + [row])
  }

  lemma HoldCost(c: Config, s: State, now: nat, p: Phone, to: Phone, amount: nat, o: Outcome)
    requires c.Ordinary(p)
    ensures HoldShape(s, Claims.Hold(c, s, now, p, to, amount, o).0, p, amount, Gas(s, p, o), LedgerRow(p, EscrowHold, amount, Some(to), now))
  {
    hide State.Transfer, Claims.WithEscrow, ClaimsOpened, Claims.CanOpen;
    if Claims.CanOpen(c, s, now, p) {
      var row := LedgerRow(p, EscrowHold, amount, Some(to), now);
      var e := Claims.WithEscrow(c, s);
      Claims.EscrowUserOnly(c, s);
      var (t, ok) := e.Transfer(p, WalletOf(c.escrow), amount, o);
      TransferCost(e, p, WalletOf(c.escrow), amount, o);
      TransferShape(e, p, WalletOf(c.escrow), amount, o);
      assert Gas(e, p, o) == Gas(s, p, o) && e.Bal(p) == s.Bal(p);
      assert HoldShape(s, t, p, amount, Gas(s, p, o), row);
      if ok {
        var u := Claims.Hold(c, s, now, p, to, amount, o).0;
        assert u == t.(claims := u.claims, ledger := t.ledger + [row]);
        assert HoldShape(s, u, p, amount, Gas(s, p, o), row);
      }
    }
  }

  lemma HeldSendSpends(c: Config, s: State, now: nat, p: Phone, m: Pending, o: Outcome)
    requires m.PSend? && m.key !in s.idem && c.Ordinary(p) && m.pendingClaim && m.toPhone.Some?
    ensures Spent(s, SendFx(c, s, now, p, m, o).0, now, p, m, Gas(s, p, o))
  {
    var s1 := s.(idem := s.idem[m.key := InFlight]);
    HoldCost(c, s1, now, p, m.toPhone.value, m.amount, o);
    BookingSpends(s, Claims.Hold(c, s1, now, p, m.toPhone.value, m.amount, o).0, SendFx(c, s, now, p, m, o).0, now, p, m, Gas(s, p, o));
  }

  /** A plain send with an address is its transfer, and its rows and its end if that landed. */
  lemma PlainSendShape(c: Config, s: State, s1: State, now: nat, p: Phone, m: Pending, o: Outcome)
    requires m.PSend? && m.key !in s.idem && !(m.pendingClaim && m.toPhone.Some?) && m.toAddress.Some?
    requires s1 == s.(idem := s.idem[m.key := InFlight])
    ensures var (s2, ok) := s1.Transfer(p, m.toAddress.value, m.amount, o);
            var t := SendFx(c, s, now, p, m, o).0;
            t == if ok then s2.(ledger := t.ledger, idem := t.idem, sessions := s2.sessions - {p}) else s2
  {
    hide State.Transfer;
  }

  lemma UnbookedSpends(s: State, s2: State, now: nat, p: Phone, m: Pending, fee: nat)
    requires Money(m) && s2 == s.(idem := s.idem[KeyOf(m) := InFlight], balance := s2.balance)
    requires s2.Bal(p) + Cost(m) + fee >= s.Bal(p)
    ensures Spent(s, s2, now, p, m, fee)
  {
  }

  lemma SameGas(s: State, t: State, p: Phone, o: Outcome)
    requires t.balance == s.balance
    ensures Gas(t, p, o) == Gas(s, p, o) && t.Bal(p) == s.Bal(p)
  {
  }

  lemma SameBooks(s: State, s2: State, t: State, now: nat, p: Phone, m: Pending)
    requires Money(m) && s2.ledger == s.ledger && Books(s2, t, now, p, m)
    ensures Books(s, t, now, p, m)
  {
  }

  lemma PlainSendSpends(c: Config, s: State, now: nat, p: Phone, m: Pending, o: Outcome)
    requires m.PSend? && m.key !in s.idem && !(m.pendingClaim && m.toPhone.Some?)
    ensures Spent(s, SendFx(c, s, now, p, m, o).0, now, p, m, Gas(s, p, o))
  {
    hide State.Transfer, Spent, Books, State.Bal;
    var s1 := s.(idem := s.idem[m.key := InFlight]);
    var t := SendFx(c, s, now, p, m, o).0;
    if m.toAddress.None? {
      assert t == s1;
      SameGas(s, s1, p, o);
      UnbookedSpends(s, s1, now, p, m, Gas(s, p, o));
    } else {
      var (s2, ok) := s1.Transfer(p, m.toAddress.value, m.amount, o);
      TransferCost(s1, p, m.toAddress.value, m.amount, o);
      TransferShape(s1, p, m.toAddress.value, m.amount, o);
      SameGas(s, s1, p, o);
      if ok {
        BookedSend(c, s2, t, now, p, m);
        SameBooks(s, s2, t, now, p, m);
        BookingSpends(s, s2, t, now, p, m, Gas(s, p, o));
      } else {
        UnbookedSpends(s, s2, now, p, m, Gas(s, p, o));
      }
    }
  }

  /** The rows and the end of a landed send. */
  lemma BookedSend(c: Config, s2: State, t: State, now: nat, p: Phone, m: Pending)
    requires m.PSend? && m.toAddress.Some? && m.key in s2.idem && !(m.pendingClaim && m.toPhone.Some?)
    requires var to := m.toPhone.Or(m.toAddress.value);
             var s3 := s2.AddRow(LedgerRow(p, Send, m.amount, Some(to), now));
             t == FinishFx(if m.toPhone.Some? then s3.AddRow(LedgerRow(m.toPhone.value, Receive, m.amount, Some(p), now)) else s3,
                           p, m.key, Sent(m.amount, m.toPhone.Or(m.toLabel))).0
    ensures t == s2.(ledger := t.ledger, idem := t.idem, sessions := s2.sessions - {p}) && t.idem.Keys == s2.idem.Keys
    ensures Books(s2, t, now, p, m)
  {
  }

  lemma SwapShape(s: State, s1: State, now: nat, p: Phone, m: Pending, o: Outcome, got: nat)
    requires m.PSwap? && m.key !in s.idem && s1 == s.(idem := s.idem[m.key := InFlight])
    ensures var s2 := SwapMove(s1, p, m, o, got).0;
            var t := SwapFx(s, now, p, m, o, got).0;
            && s2 == s1.(balance := s2.balance) && s2.Bal(p) + Cost(m) + Gas(s1, p, o) >= s1.Bal(p)
            && (t == s2 || t == FinishFx(s2.AddRow(BookedRow(p, m, now)), p, m.key, Swapped(m.amount, got)).0)
  {
    TransferCost(s1, p, POOL, m.amount, o);
    TransferShape(s1, p, POOL, m.amount, o);
  }

  lemma SwapSpends(s: State, now: nat, p: Phone, m: Pending, o: Outcome, got: nat)
    requires m.PSwap? && m.key !in s.idem
    ensures Spent(s, SwapFx(s, now, p, m, o, got).0, now, p, m, Gas(s, p, o))
  {
    var s1 := s.(idem := s.idem[m.key := InFlight]);
    var t := SwapFx(s, now, p, m, o, got).0;
    hide SwapMove, SwapFx;
    SwapShape(s, s1, now, p, m, o, got);
    BookingSpends(s, SwapMove(s1, p, m, o, got).0, t, now, p, m, Gas(s, p, o));
  }

  lemma AirtimeMoveCost(c: Config, s: State, p: Phone, charge: nat, env: Env)
    requires c.Ordinary(p)
    ensures var t := AirtimeMove(c, s, p, charge, env).0;
            t.Bal(p) + charge + Gas(s, p, env.outcome) >= s.Bal(p) && t == s.WithUser(c.sink).(balance := t.balance)
  {
    var e := s.WithUser(c.sink);
    var t := e.Transfer(p, WalletOf(c.sink), charge, env.outcome).0;
    TransferCost(e, p, WalletOf(c.sink), charge, env.outcome);
    TransferShape(e, p, WalletOf(c.sink), charge, env.outcome);
    TransferKeepsOthers(t, c.sink, WalletOf(p), charge, env.refund, p);
  }

  lemma TopupSpends(c: Config, s: State, now: nat, p: Phone, m: Pending, env: Env)
    requires m.PTopup? && m.key !in s.idem && c.Ordinary(p)
    ensures Spent(s, TopupFx(c, s, now, p, m, env).0, now, p, m, Gas(s, p, env.outcome))
  {
    var s1 := s.(idem := s.idem[m.key := InFlight]);
    var t := TopupFx(c, s, now, p, m, env).0;
    var (s2, ok) := AirtimeMove(c, s1, p, m.charge, env);
    AirtimeMoveCost(c, s1, p, m.charge, env);
    BookingSpends(s, s2, t, now, p, m, Gas(s, p, env.outcome));
  }

  lemma PayingSpends(c: Config, s: State, now: nat, p: Phone, m: Pending, env: Env)
    requires Money(m) && KeyOf(m) !in s.idem && c.Ordinary(p)
    ensures Spent(s, PayFx(c, s, now, p, m, env).0, now, p, m, Gas(s, p, env.outcome))
  {
    match m
    case PSend(_, _, _, _, _, _, _) =>
      if m.pendingClaim && m.toPhone.Some? {
        HeldSendSpends(c, s, now, p, m, env.outcome);
      } else {
        PlainSendSpends(c, s, now, p, m, env.outcome);
      }
    case PSwap(_, _, _, _) => SwapSpends(s, now, p, m, env.outcome, env.got);
    case PTopup(_, _, _) => TopupSpends(c, s, now, p, m, env);
  }
}
