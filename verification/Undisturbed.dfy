/** One handler running alone: the small steps of module Settlement add up to the whole handlers of
    module Pipeline, and a repeated confirmation gets the saved answer. */
module Undisturbed {
  import opened Text
  import Tables
  import opened Settlement
  import Pipeline
  import Payments
  import Claims
  import Settings

  /** Handler i takes n steps in a row, nothing fails and nobody else moves. */
  function Alone(w: World, i: nat, n: nat): World
    requires i < |w.tasks|
    ensures |Alone(w, i, n).tasks| == |w.tasks|
  {
    if n == 0 then w else RunStep(Alone(w, i, n - 1), i, Goes)
  }

  lemma OneMoreStep(w: World, i: nat, n: nat, v: World)
    requires i < |w.tasks| && Alone(w, i, n) == v
    ensures i < |v.tasks| && Alone(w, i, n + 1) == RunStep(v, i, Goes)
  {
  }

  predicate Mirrors(o: Order) {
    o.sort == Sending && o.payeePhone.Some?
  }

  /** The rows a finished order leaves in the ledger. */
  function EntriesOf(o: Order): seq<Entry> {
    [EntryOf(o)] + if Mirrors(o) then [Entry(o.key, o.payeePhone.Or(o.phone), Tables.Receive, o.amount, o.phone)] else []
  }

  /** Up to the claimed key: the slot is read, the PIN is right, the row is inserted. */
  lemma ReachesTheTransfer(w: World, i: nat, p: Tables.Phone)
    requires i < |w.tasks| && w.tasks[i] == Reading(p) && p in w.slot && w.slot[p].key !in w.idem
    ensures var o := w.slot[p];
            Alone(w, i, 3) == Put(w.(idem := w.idem[o.key := Underway]), i, Moving(o))
  {
    var o := w.slot[p];
    OneMoreStep(w, i, 0, w);
    var v := Put(w, i, Checking(o));
    OneMoreStep(w, i, 1, v);
    OneMoreStep(w, i, 2, Put(v, i, Claiming(o)));
    assert Put(Put(v, i, Claiming(o)), i, Moving(o)) == Put(w, i, Moving(o));
  }

  lemma {:induction false} StepsAddUp(w: World, i: nat, m: nat, n: nat)
    requires i < |w.tasks|
    ensures Alone(w, i, m + n) == Alone(Alone(w, i, m), i, n)
  {
    hide RunStep;
    if n > 0 {
      StepsAddUp(w, i, m, n - 1);
    }
  }

  /** The transfer and the payer's row. */
  lemma TransfersAndBooksOnce(w: World, i: nat, o: Order)
    requires i < |w.tasks| && w.tasks[i] == Moving(o)
    ensures Alone(w, i, 2)
         == Put(w.(moves := w.moves + [MoveOf(o)], entries := w.entries + [EntryOf(o)]), i, if Mirrors(o) then Mirroring(o) else Clearing(o))
  {
    var w1 := Put(w.(moves := w.moves + [MoveOf(o)]), i, Booking(o));
    OneMoreStep(w, i, 0, w);
    OneMoreStep(w, i, 1, w1);
    var t := if Mirrors(o) then Mirroring(o) else Clearing(o);
    assert w1.tasks[i := t] == w.tasks[i := t];
  }

  /** The transfer and its rows. */
  lemma TransfersAndBooks(w: World, i: nat, o: Order)
    requires i < |w.tasks| && w.tasks[i] == Moving(o)
    ensures Alone(w, i, if Mirrors(o) then 3 else 2)
         == Put(w.(moves := w.moves + [MoveOf(o)], entries := w.entries + EntriesOf(o)), i, Clearing(o))
  {
    hide Alone;
    TransfersAndBooksOnce(w, i, o);
    var rows := w.entries + [EntryOf(o)];
    if Mirrors(o) {
      var mirror := Entry(o.key, o.payeePhone.Or(o.phone), Tables.Receive, o.amount, o.phone);
      var w2 := Put(w.(moves := w.moves + [MoveOf(o)], entries := rows), i, Mirroring(o));
      OneMoreStep(w, i, 2, w2);
      assert rows + [mirror] == w.entries + EntriesOf(o);
      assert w2.tasks[i := Clearing(o)] == w.tasks[i := Clearing(o)];
    } else {
      assert rows == w.entries + EntriesOf(o);
    }
  }

  /** The slot and the answer. */
  lemma ClearsAndSaves(w: World, i: nat, o: Order)
    requires i < |w.tasks| && w.tasks[i] == Clearing(o)
    ensures Alone(w, i, 2)
         == Put(w.(slot := w.slot - {o.phone}, idem := w.idem[o.key := Settled(ResultOf(o))]), i, Done(Finished(o.key, ResultOf(o))))
  {
    var v := Put(w.(slot := w.slot - {o.phone}), i, Saving(o));
    OneMoreStep(w, i, 0, w);
    OneMoreStep(w, i, 1, v);
    assert v.tasks[i := Done(Finished(o.key, ResultOf(o)))] == w.tasks[i := Done(Finished(o.key, ResultOf(o)))];
  }

  /** From the transfer on: money, rows, slot and answer. */
  lemma FinishesFromTheTransfer(w: World, i: nat, o: Order)
    requires i < |w.tasks| && w.tasks[i] == Moving(o)
    ensures Alone(w, i, if Mirrors(o) then 5 else 4)
         == World(w.slot - {o.phone}, w.idem[o.key := Settled(ResultOf(o))], w.moves + [MoveOf(o)],
                  w.entries + EntriesOf(o), w.minted, w.tasks[i := Done(Finished(o.key, ResultOf(o)))])
  {
    hide Alone, RunStep, EntriesOf, Mirrors;
    TransfersAndBooks(w, i, o);
    var v := Put(w.(moves := w.moves + [MoveOf(o)], entries := w.entries + EntriesOf(o)), i, Clearing(o));
    ClearsAndSaves(v, i, o);
    StepsAddUp(w, i, if Mirrors(o) then 3 else 2, 2);
    assert v.tasks[i := Done(Finished(o.key, ResultOf(o)))] == w.tasks[i := Done(Finished(o.key, ResultOf(o)))];
  }

  /** An undisturbed confirmation of a fresh order completes: one transfer, its rows, an empty slot, and
      the answer both given and saved. */
  lemma UndisturbedConfirmationPays(w: World, i: nat, p: Tables.Phone)
    requires i < |w.tasks| && w.tasks[i] == Reading(p) && p in w.slot && w.slot[p].key !in w.idem
    ensures var o := w.slot[p];
            Alone(w, i, if Mirrors(o) then 8 else 7)
            == World(w.slot - {o.phone}, w.idem[o.key := Settled(ResultOf(o))], w.moves + [MoveOf(o)],
                     w.entries + EntriesOf(o), w.minted, w.tasks[i := Done(Finished(o.key, ResultOf(o)))])
  {
    hide RunStep, Alone;
    var o := w.slot[p];
    var v := Put(w.(idem := w.idem[o.key := Underway]), i, Moving(o));
    ReachesTheTransfer(w, i, p);
    FinishesFromTheTransfer(v, i, o);
    StepsAddUp(w, i, 3, if Mirrors(o) then 5 else 4);
    assert w.idem[o.key := Underway][o.key := Settled(ResultOf(o))] == w.idem[o.key := Settled(ResultOf(o))];
    assert v.tasks[i := Done(Finished(o.key, ResultOf(o)))] == w.tasks[i := Done(Finished(o.key, ResultOf(o)))];
  }

  /** Confirming an order that already went through, say after a voice note wrote it back, moves nothing
      and gives the saved answer. */
  lemma RepeatedConfirmationAnswersTheSame(w: World, i: nat, p: Tables.Phone)
    requires i < |w.tasks| && w.tasks[i] == Reading(p) && p in w.slot
    requires w.slot[p].key in w.idem && w.idem[w.slot[p].key].Settled?
    ensures var o := w.slot[p];
            Alone(w, i, 4) == w.(tasks := w.tasks[i := Done(Finished(o.key, w.idem[o.key].result))])
  {
    var o := w.slot[p];
    OneMoreStep(w, i, 0, w);
    var v := Put(w, i, Checking(o));
    OneMoreStep(w, i, 1, v);
    OneMoreStep(w, i, 2, Put(v, i, Claiming(o)));
    OneMoreStep(w, i, 3, Put(Put(v, i, Claiming(o)), i, Looking(o)));
    assert Put(Put(Put(v, i, Claiming(o)), i, Looking(o)), i, Done(Finished(o.key, w.idem[o.key].result)))
        == w.(tasks := w.tasks[i := Done(Finished(o.key, w.idem[o.key].result))]);
  }

  // ----- the same as the whole handler -----

  /** A pending payment as an order of the small-step model. */
  function OrderOf(p: Tables.Phone, m: Tables.Pending): Order
    requires m.PSend? || m.PSwap? || m.PTopup?
  {
    match m
    case PSend(amount, _, toAddress, toPhone, pendingClaim, key, memo) =>
      Order(if pendingClaim && toPhone.Some? then Holding else Sending, p, key, amount, toPhone.Or(toAddress.Or("")), toPhone, memo)
    case PSwap(amount, tokenIn, _, key) => Order(Swapping, p, key, if tokenIn == Tables.USDC then amount else 0, Pipeline.POOL, None, "")
    case PTopup(charge, msisdn, key) => Order(ToppingUp, p, key, charge, msisdn, None, "")
  }

  /** The row of the tables for an entry; the row of a swap names no counterparty. */
  function RowOf(e: Entry, now: nat): Tables.LedgerRow {
    Tables.LedgerRow(e.phone, e.kind, e.amount, if e.kind == Tables.Swap then None else Some(e.payee), now)
  }

  function RowsOf(es: seq<Entry>, now: nat): seq<Tables.LedgerRow> {
    seq(|es|, i requires 0 <= i < |es| => RowOf(es[i], now))
  }

  lemma HeldSendBooksTheSameRow(c: Settings.Config, s: Tables.State, now: nat, p: Tables.Phone, m: Tables.Pending, o: Tables.Outcome)
    requires m.PSend? && m.key !in s.idem && m.pendingClaim && m.toPhone.Some?
    requires Pipeline.SendFx(c, s, now, p, m, o).1.HeldFor?
    ensures var t := Pipeline.SendFx(c, s, now, p, m, o).0;
            && t.ledger == s.ledger + RowsOf(EntriesOf(OrderOf(p, m)), now)
            && t.sessions == s.sessions - {p}
            && t.idem.Keys == s.idem.Keys + {m.key} && t.idem[m.key].Completed?
  {
    hide Claims.Hold;
    var s1 := s.(idem := s.idem[m.key := Tables.InFlight]);
    HoldBooksOneRow(c, s1, now, p, m.toPhone.value, m.amount, o);
    var (t, id) := Claims.Hold(c, s1, now, p, m.toPhone.value, m.amount, o);
    assert id.Some?;
    var order := OrderOf(p, m);
    var row := Tables.LedgerRow(p, Tables.EscrowHold, m.amount, Some(m.toPhone.value), now);
    assert row == RowOf(EntryOf(order), now);
    assert EntriesOf(order) == [EntryOf(order)];
    assert RowsOf(EntriesOf(order), now) == [row];
    assert t.ledger == s.ledger + [row];
    assert Pipeline.SendFx(c, s, now, p, m, o).0.ledger == t.ledger;
  }

  lemma PlainSendBooksTheSameRows(c: Settings.Config, s: Tables.State, now: nat, p: Tables.Phone, m: Tables.Pending, o: Tables.Outcome)
    requires m.PSend? && m.key !in s.idem && !(m.pendingClaim && m.toPhone.Some?)
    requires Pipeline.SendFx(c, s, now, p, m, o).1.Sent?
    ensures var t := Pipeline.SendFx(c, s, now, p, m, o).0;
            && t.ledger == s.ledger + RowsOf(EntriesOf(OrderOf(p, m)), now)
            && t.sessions == s.sessions - {p}
            && t.idem.Keys == s.idem.Keys + {m.key} && t.idem[m.key].Completed?
  {
    var order := OrderOf(p, m);
    Tables.TransferShape(s.(idem := s.idem[m.key := Tables.InFlight]), p, m.toAddress.value, m.amount, o);
    var t := Pipeline.SendFx(c, s, now, p, m, o).0;
    var first := Tables.LedgerRow(p, Tables.Send, m.amount, Some(m.toPhone.Or(m.toAddress.value)), now);
    assert first == RowOf(EntryOf(order), now);
    if m.toPhone.Some? {
      var second := Tables.LedgerRow(m.toPhone.value, Tables.Receive, m.amount, Some(p), now);
      assert second == RowOf(EntriesOf(order)[1], now);
      assert RowsOf(EntriesOf(order), now) == [first, second];
      assert t.ledger == s.ledger + [first] + [second] == s.ledger + [first, second];
    } else {
      assert RowsOf(EntriesOf(order), now) == [first];
      assert t.ledger == s.ledger + [first];
    }
  }

  lemma HoldBooksOneRow(c: Settings.Config, s: Tables.State, now: nat, p: Tables.Phone, to: Tables.Phone, amount: nat, o: Tables.Outcome)
    ensures var (t, id) := Claims.Hold(c, s, now, p, to, amount, o);
            && t.sessions == s.sessions && t.idem == s.idem
            && (id.Some? ==> t.ledger == s.ledger + [Tables.LedgerRow(p, Tables.EscrowHold, amount, Some(to), now)])
  {
    hide Tables.State.Transfer, Claims.WithEscrow, Claims.CanOpen;
    var e := Claims.WithEscrow(c, s);
    Claims.EscrowUserOnly(c, s);
    Tables.TransferShape(e, p, Tables.WalletOf(c.escrow), amount, o);
    if Claims.CanOpen(c, s, now, p) {
      var (u, ok) := e.Transfer(p, Tables.WalletOf(c.escrow), amount, o);
      assert u == s.(users := u.users, balance := u.balance);
    }
  }

  lemma SwapBooksTheSameRow(c: Settings.Config, s: Tables.State, now: nat, p: Tables.Phone, m: Tables.Pending, env: Pipeline.Env)
    requires m.PSwap? && m.key !in s.idem && Pipeline.SwapFx(s, now, p, m, env.outcome, env.got).1.Swapped?
    ensures var t := Pipeline.SwapFx(s, now, p, m, env.outcome, env.got).0;
            && t.ledger == s.ledger + RowsOf(EntriesOf(OrderOf(p, m)), now)
            && t.sessions == s.sessions - {p}
            && t.idem.Keys == s.idem.Keys + {m.key} && t.idem[m.key].Completed?
  {
    hide Pipeline.SwapMove;
    var s1 := s.(idem := s.idem[m.key := Tables.InFlight]);
    Payments.SwapShape(s, s1, now, p, m, env.outcome, env.got);
    var order := OrderOf(p, m);
    assert EntriesOf(order) == [EntryOf(order)];
    assert RowsOf(EntriesOf(order), now) == [RowOf(EntryOf(order), now)];
  }

  lemma TopupBooksTheSameRow(c: Settings.Config, s: Tables.State, now: nat, p: Tables.Phone, m: Tables.Pending, env: Pipeline.Env)
    requires c.Ordinary(p) && m.PTopup? && m.key !in s.idem && Pipeline.TopupFx(c, s, now, p, m, env).1.ToppedUp?
    ensures var t := Pipeline.TopupFx(c, s, now, p, m, env).0;
            && t.ledger == s.ledger + RowsOf(EntriesOf(OrderOf(p, m)), now)
            && t.sessions == s.sessions - {p}
            && t.idem.Keys == s.idem.Keys + {m.key} && t.idem[m.key].Completed?
  {
    hide Pipeline.AirtimeMove;
    var s1 := s.(idem := s.idem[m.key := Tables.InFlight]);
    Payments.AirtimeMoveCost(c, s1, p, m.charge, env);
    assert s1.WithUser(c.sink).ledger == s.ledger && s1.WithUser(c.sink).sessions == s.sessions && s1.WithUser(c.sink).idem == s1.idem;
    var order := OrderOf(p, m);
    assert EntriesOf(order) == [EntryOf(order)];
    assert RowsOf(EntriesOf(order), now) == [RowOf(EntryOf(order), now)];
  }

  /** The answer of a payment that went through. */
  predicate WentThrough(r: Tables.Reply) {
    r.Sent? || r.HeldFor? || r.Swapped? || r.ToppedUp?
  }

  /** A payment that goes through books, as one step, exactly the rows that its small steps book. */
  lemma WholePaymentBooksTheSameRows(c: Settings.Config, s: Tables.State, now: nat, p: Tables.Phone, m: Tables.Pending, env: Pipeline.Env)
    requires c.Ordinary(p) && (m.PSend? || m.PSwap? || m.PTopup?) && m.key !in s.idem
    requires WentThrough(Pipeline.PayFx(c, s, now, p, m, env).1)
    ensures var t := Pipeline.PayFx(c, s, now, p, m, env).0;
            && t.ledger == s.ledger + RowsOf(EntriesOf(OrderOf(p, m)), now)
            && t.sessions == s.sessions - {p}
            && t.idem.Keys == s.idem.Keys + {m.key} && t.idem[m.key].Completed?
  {
    hide RowsOf, EntriesOf, OrderOf;
    AnswersFit(c, s, now, p, m, env);
    if m.PSwap? {
      SwapBooksTheSameRow(c, s, now, p, m, env);
    } else if m.PTopup? {
      TopupBooksTheSameRow(c, s, now, p, m, env);
    } else if m.pendingClaim && m.toPhone.Some? {
      HeldSendBooksTheSameRow(c, s, now, p, m, env.outcome);
    } else {
      PlainSendBooksTheSameRows(c, s, now, p, m, env.outcome);
    }
  }

  /** Each kind of payment answers in its own way when it goes through. */
  lemma AnswersFit(c: Settings.Config, s: Tables.State, now: nat, p: Tables.Phone, m: Tables.Pending, env: Pipeline.Env)
    requires (m.PSend? || m.PSwap? || m.PTopup?) && m.key !in s.idem && WentThrough(Pipeline.PayFx(c, s, now, p, m, env).1)
    ensures var r := Pipeline.PayFx(c, s, now, p, m, env).1;
            if m.PSwap? then r.Swapped? else if m.PTopup? then r.ToppedUp? else if m.pendingClaim && m.toPhone.Some? then r.HeldFor? else r.Sent?
  {
    hide Pipeline.SwapMove, Pipeline.AirtimeMove, Claims.Hold, Tables.State.Transfer;
  }
}
