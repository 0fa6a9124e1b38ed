/** What top-ups and swaps cost (orchestrator/src/lib/airtime.ts, `quoteAirtimeCharge`): laws of the quote,
    and what leaves and enters the wallet of a caller who asks and confirms. */
module Quotes {
  import opened Text
  import opened Tables
  import opened Settings
  import opened Policy
  import opened Payees
  import opened Pipeline
  import opened Dialogue

  const MICRO := 1_000_000
  const BASIS := 10_000

  /** Micro-dollars for one unit of the face currency. */
  function Rate(c: Config, euro: bool): nat {
    if euro then c.eurUsd else MICRO
  }

  /** The exact price in units of a ten thousandth of a millionth of a micro-dollar: the face at its rate, and
      the fee in basis points on top. */
  function ExactPrice(c: Config, face: nat, euro: bool): nat {
    Times(face, Rate(c, euro)) * BASIS + Times(Times(face, Rate(c, euro)), c.feeBps)
  }

  lemma Fee(dollars: nat, bps: nat)
    ensures Times(dollars, 10_000 + bps) == dollars * 10_000 + Times(dollars, bps)
  {
  }

  /** The quote is the exact price to the nearest micro-dollar, halves up. */
  lemma QuotesAreRounded(c: Config, face: nat, euro: bool)
    ensures var unit := MICRO * BASIS;
            var off := AirtimeCharge(c, face, euro) * unit - ExactPrice(c, face, euro);
            -unit < 2 * off <= unit
  {
    hide Times;
    Fee(Times(face, Rate(c, euro)), c.feeBps);
  }

  /** Without a fee a dollar of airtime costs a dollar. */
  lemma DollarsAreDollars(c: Config, face: nat)
    requires c.feeBps == 0
    ensures AirtimeCharge(c, face, false) == face
  {
    QuotesAreRounded(c, face, false);
  }

  /** Euros cost what the dollars cost that they are worth, if those are whole micro-dollars. */
  lemma EurosAreExchanged(c: Config, face: nat, dollars: nat)
    requires Times(face, c.eurUsd) == dollars * MICRO
    ensures AirtimeCharge(c, face, true) == AirtimeCharge(c, dollars, false)
  {
  }

  lemma TimesGrows(a: nat, b: nat, x: nat, y: nat)
    requires a <= b && x <= y
    ensures Times(a, x) <= Times(b, y)
  {
    assert a * x <= b * x by { assert (b - a) * x >= 0; }
    assert b * x <= b * y by { assert b * (y - x) >= 0; }
  }

  /** More airtime, a higher fee and a dearer euro never cost less. */
  lemma QuotesGrow(c: Config, d: Config, face: nat, more: nat, euro: bool)
    requires face <= more && c.feeBps <= d.feeBps && c.eurUsd <= d.eurUsd
    ensures AirtimeCharge(c, face, euro) <= AirtimeCharge(d, more, euro)
  {
    hide Times;
    TimesGrows(face, more, Rate(c, euro), Rate(d, euro));
    TimesGrows(Times(face, Rate(c, euro)), Times(more, Rate(d, euro)), 10_000 + c.feeBps, 10_000 + d.feeBps);
  }

  /** Airtime never costs less than its face is worth, but for the rounding. */
  lemma QuotesCoverTheFace(c: Config, face: nat)
    ensures AirtimeCharge(c, face, false) >= face
  {
    QuotesAreRounded(c, face, false);
    assert Times(Times(face, MICRO), c.feeBps) >= 0;
  }

  // ----- asked and confirmed -----

  /** A top-up is opened exactly if the gate accepts its quote, and the order is for that quote and number. */
  lemma TopupsOpenExactly(c: Config, s: State, at: nat, raw: string, face: nat, euro: bool, to: Option<string>, env: Env)
    requires |c.tiers| == 3 && Caller(s, raw)
    ensures var p, charge := NormalizePhone(raw), AirtimeCharge(c, face, euro);
            var t := Tell(c, s, at, raw, Topup(face, euro, to), env);
            && (Opened(s, t, p) <==> TopupGate(c, s, at, p, charge).0 == Confirm)
            && (Opened(s, t, p) ==>
                  && t.sessions[p] == PTopup(charge, if to.Some? then NormalizePhone(to.value) else p, s.nextKey)
                  && t == s.(locks := t.locks, sessions := t.sessions, nextKey := t.nextKey))
            && (!Opened(s, t, p) ==> t == s.(locks := t.locks))
  {
    hide AirtimeCharge, TopupGate, NormalizePhone, IsTelegram, ServeOrdersFx, ServeProfileFx, Tell, RequestTopupFx, Opened;
    Served(c, s, at, raw, Topup(face, euro, to), env);
    TopupRequestOpens(c, s, at, NormalizePhone(raw), face, euro, to);
  }

  lemma TopupRequestOpens(c: Config, s: State, at: nat, p: Phone, face: nat, euro: bool, to: Option<string>)
    requires |c.tiers| == 3
    ensures var t, charge := RequestTopupFx(c, s, at, p, face, euro, to).0, AirtimeCharge(c, face, euro);
            && (Opened(s, t, p) <==> TopupGate(c, s, at, p, charge).0 == Confirm)
            && (Opened(s, t, p) ==>
                  && t.sessions[p] == PTopup(charge, if to.Some? then NormalizePhone(to.value) else p, s.nextKey)
                  && t == s.(locks := t.locks, sessions := t.sessions, nextKey := t.nextKey))
            && (!Opened(s, t, p) ==> t == s.(locks := t.locks))
  {
    hide AirtimeCharge, TopupGate, NormalizePhone, Opened, State.PutPending;
    var charge := AirtimeCharge(c, face, euro);
    TopupGateReleases(c, s, at, p, charge);
    FillingTheSlot(s, TopupGate(c, s, at, p, charge).1, p, PTopup(charge, if to.Some? then NormalizePhone(to.value) else p, s.nextKey));
  }

  lemma TopupGateReleases(c: Config, s: State, at: nat, p: Phone, charge: nat)
    requires |c.tiers| == 3
    ensures var (v, t) := TopupGate(c, s, at, p, charge); t == s.(locks := t.locks) && (v == Confirm || v == Reject)
  {
    hide LockBlocks, CoolsDown, SpentToday, LimitsFor;
  }

  lemma LandedTopup(c: Config, s: State, at: nat, p: Phone, m: Pending, env: Env)
    requires m.PTopup? && m.key !in s.idem && p in s.users && p != c.sink && env.delivered
    requires env.outcome.Landed? && m.charge + env.outcome.fee <= s.Bal(p)
    ensures var t := PayFx(c, s, at, p, m, env).0;
            && t.Bal(p) == s.Bal(p) - m.charge - env.outcome.fee && t.Bal(c.sink) == s.Bal(c.sink) + m.charge
            && t.ledger == s.ledger + [LedgerRow(p, Airtime, m.charge, Some(m.msisdn), at)]
  {
    hide State.Transfer, State.WithUser;
    var s1, t := s.(idem := s.idem[m.key := InFlight]), PayFx(c, s, at, p, m, env).0;
    var e := s1.WithUser(c.sink);
    WithUserOnly(s1, c.sink);
    WalletsDiffer(p, c.sink);
    LandedTransfer(e, p, WalletOf(c.sink), m.charge, env.outcome);
    assert t.balance == e.Transfer(p, WalletOf(c.sink), m.charge, env.outcome).0.balance;
  }

  lemma WithUserOnly(s: State, q: Phone)
    ensures var e := s.WithUser(q); e == s.(users := e.users) && s.users.Keys <= e.users.Keys
  {
  }

  /** A caller who asks for airtime, is accepted and confirms it pays the quote and the gas, the airtime account
      gets the quote, and one row books it. */
  lemma TopupsCostTheirQuote(c: Config, s: State, at: nat, later: nat, raw: string, face: nat, euro: bool, to: Option<string>, pin: string, env: Env, env2: Env)
    requires |c.tiers| == 3 && Caller(s, raw) && c.Ordinary(NormalizePhone(raw)) && s.nextKey !in s.idem
    requires CanPay(s, later, NormalizePhone(raw), pin, AirtimeCharge(c, face, euro), env2.outcome) && env2.delivered
    ensures var p, charge := NormalizePhone(raw), AirtimeCharge(c, face, euro);
            var t := Tell(c, s, at, raw, Topup(face, euro, to), env);
            var u := Tell(c, t, later, raw, ConfirmWith(Some(pin)), env2);
            Opened(s, t, p) ==>
              && u.Bal(p) == s.Bal(p) - charge - env2.outcome.fee && u.Bal(c.sink) == s.Bal(c.sink) + charge
              && u.ledger == s.ledger + [LedgerRow(p, Airtime, charge, Some(if to.Some? then NormalizePhone(to.value) else p), later)]
  {
    hide AirtimeCharge, TopupGate, NormalizePhone, IsTelegram, Tell, PayFx, State.ClearFails, WalletOf;
    var p := NormalizePhone(raw);
    var t := Tell(c, s, at, raw, Topup(face, euro, to), env);
    TopupsOpenExactly(c, s, at, raw, face, euro, to, env);
    if Opened(s, t, p) {
      Confirmed(c, t, later, raw, pin, env2);
      ClearedIsTheSame(t, p);
      LandedTopup(c, t.ClearFails(p), later, p, t.sessions[p], env2);
    }
  }

  lemma ClearedIsTheSame(s: State, p: Phone)
    requires p in s.users
    ensures var u := s.ClearFails(p);
            u.balance == s.balance && u.idem == s.idem && u.ledger == s.ledger && p in u.users && forall q :: u.Bal(q) == s.Bal(q)
  {
  }

  /** Without a fee, ten dollars of airtime take ten dollars and the gas. */
  lemma DollarTopupsTakeTheirFace(c: Config, s: State, at: nat, later: nat, raw: string, face: nat, pin: string, env: Env, env2: Env)
    requires |c.tiers| == 3 && Caller(s, raw) && c.Ordinary(NormalizePhone(raw)) && s.nextKey !in s.idem && c.feeBps == 0
    requires CanPay(s, later, NormalizePhone(raw), pin, face, env2.outcome) && env2.delivered
    ensures var p, t := NormalizePhone(raw), Tell(c, s, at, raw, Topup(face, false, None), env);
            Opened(s, t, p) ==> Tell(c, t, later, raw, ConfirmWith(Some(pin)), env2).Bal(p) == s.Bal(p) - face - env2.outcome.fee
  {
    hide AirtimeCharge, NormalizePhone, IsTelegram, Tell, WalletOf;
    DollarsAreDollars(c, face);
    TopupsCostTheirQuote(c, s, at, later, raw, face, false, None, pin, env, env2);
  }

  // ----- swaps -----

  lemma SwapGateReleases(c: Config, s: State, at: nat, p: Phone, amount: nat, tokenIn: Token, tokenOut: Token)
    requires |c.tiers| == 3
    ensures var (v, t) := SwapGate(c, s, at, p, amount, tokenIn, tokenOut); t == s.(locks := t.locks) && (v == Confirm || v == Reject)
  {
    hide LockBlocks, CoolsDown, SpentToday, LimitsFor;
  }

  lemma SwapRequestOpens(c: Config, s: State, at: nat, p: Phone, amount: nat, tokenIn: Token, tokenOut: Token)
    requires |c.tiers| == 3
    ensures var t := RequestSwapFx(c, s, at, p, amount, tokenIn, tokenOut).0;
            && (Opened(s, t, p) <==> SwapGate(c, s, at, p, amount, tokenIn, tokenOut).0 == Confirm)
            && (Opened(s, t, p) ==>
                  && t.sessions[p] == PSwap(amount, tokenIn, tokenOut, s.nextKey)
                  && t == s.(locks := t.locks, sessions := t.sessions, nextKey := t.nextKey))
            && (!Opened(s, t, p) ==> t == s.(locks := t.locks))
  {
    hide SwapGate, Opened, State.PutPending;
    SwapGateReleases(c, s, at, p, amount, tokenIn, tokenOut);
    FillingTheSlot(s, SwapGate(c, s, at, p, amount, tokenIn, tokenOut).1, p, PSwap(amount, tokenIn, tokenOut, s.nextKey));
  }

  /** A swap is opened exactly if the gate accepts it, and the order is for that amount and those tokens. */
  lemma SwapsOpenExactly(c: Config, s: State, at: nat, raw: string, amount: nat, tokenIn: Token, tokenOut: Token, env: Env)
    requires |c.tiers| == 3 && Caller(s, raw)
    ensures var p, t := NormalizePhone(raw), Tell(c, s, at, raw, SwapFor(amount, tokenIn, tokenOut), env);
            && (Opened(s, t, p) <==> SwapGate(c, s, at, p, amount, tokenIn, tokenOut).0 == Confirm)
            && (Opened(s, t, p) ==>
                  && t.sessions[p] == PSwap(amount, tokenIn, tokenOut, s.nextKey)
                  && t == s.(locks := t.locks, sessions := t.sessions, nextKey := t.nextKey))
            && (!Opened(s, t, p) ==> t == s.(locks := t.locks))
  {
    hide SwapGate, NormalizePhone, IsTelegram, ServeOrdersFx, ServeProfileFx, Tell, RequestSwapFx, Opened;
    Served(c, s, at, raw, SwapFor(amount, tokenIn, tokenOut), env);
    SwapRequestOpens(c, s, at, NormalizePhone(raw), amount, tokenIn, tokenOut);
  }

  lemma LandedSwap(c: Config, s: State, at: nat, p: Phone, m: Pending, env: Env)
    requires m.PSwap? && m.tokenIn != m.tokenOut && m.key !in s.idem && p in s.users && env.outcome.Landed?
    requires m.tokenIn == USDC ==> m.amount + env.outcome.fee <= s.Bal(p)
    ensures var t := PayFx(c, s, at, p, m, env).0;
            && t.Bal(p) == s.Bal(p) + (if m.tokenOut == USDC then env.got else 0) - (if m.tokenIn == USDC then m.amount + env.outcome.fee else 0)
            && t.ledger == s.ledger + [LedgerRow(p, Swap, if m.tokenIn == USDC then m.amount else 0, None, at)]
  {
    hide State.Transfer;
    var s1, t := s.(idem := s.idem[m.key := InFlight]), PayFx(c, s, at, p, m, env).0;
    if m.tokenIn == USDC {
      assert |WalletOf(p)| >= 7 && |POOL| == 4;
      LandedTransfer(s1, p, POOL, m.amount, env.outcome);
      assert t.balance == s1.Transfer(p, POOL, m.amount, env.outcome).0.balance;
    } else if m.tokenOut == USDC {
      CreditIsExact(s1, WalletOf(p), env.got);
    }
  }

  /** A caller who asks for a swap, is accepted and confirms it pays the amount and the gas if it swaps USDC
      away, gets the proceeds if it swaps into USDC, and has one row of what it paid. */
  lemma SwapsCostTheirAmount(c: Config, s: State, at: nat, later: nat, raw: string, amount: nat, tokenIn: Token, tokenOut: Token, pin: string, env: Env, env2: Env)
    requires |c.tiers| == 3 && Caller(s, raw) && s.nextKey !in s.idem
    requires CanPay(s, later, NormalizePhone(raw), pin, if tokenIn == USDC then amount else 0, env2.outcome)
    ensures var p, t := NormalizePhone(raw), Tell(c, s, at, raw, SwapFor(amount, tokenIn, tokenOut), env);
            var u := Tell(c, t, later, raw, ConfirmWith(Some(pin)), env2);
            Opened(s, t, p) ==>
              && u.Bal(p) == s.Bal(p) + (if tokenOut == USDC then env2.got else 0) - (if tokenIn == USDC then amount + env2.outcome.fee else 0)
              && u.ledger == s.ledger + [LedgerRow(p, Swap, if tokenIn == USDC then amount else 0, None, later)]
  {
    hide SwapGate, NormalizePhone, IsTelegram, Tell, PayFx, State.ClearFails, WalletOf;
    var p := NormalizePhone(raw);
    var t := Tell(c, s, at, raw, SwapFor(amount, tokenIn, tokenOut), env);
    SwapsOpenExactly(c, s, at, raw, amount, tokenIn, tokenOut, env);
    if Opened(s, t, p) {
      TokensDiffer(c, s, at, p, amount, tokenIn, tokenOut);
      Confirmed(c, t, later, raw, pin, env2);
      ClearedIsTheSame(t, p);
      LandedSwap(c, t.ClearFails(p), later, p, t.sessions[p], env2);
    }
  }

  lemma TokensDiffer(c: Config, s: State, at: nat, p: Phone, amount: nat, tokenIn: Token, tokenOut: Token)
    requires |c.tiers| == 3 && SwapGate(c, s, at, p, amount, tokenIn, tokenOut).0 == Confirm
    ensures tokenIn != tokenOut
  {
    hide SpendGate;
  }
}
