/** The timer jobs (orchestrator/src/lib/workers.ts): paying standing orders that fall due. */
module Workers {
  import opened Text
  import opened Tables
  import opened Settings
  import opened Pipeline
  import opened Calendar
  import opened Payees
  import opened Registers
  import opened Runs
  import opened SendText
  import Handlers
  import PinTexts

  const DUE_LIMIT: nat := 50

  /** Active orders whose time has come, by id. */
  function DueIds(orders: seq<StandingOrder>, now: nat): (ids: seq<nat>)
    ensures forall k | k in ids :: k < |orders| && orders[k].active && orders[k].nextRun <= now
    ensures forall i, j | 0 <= i < j < |ids| :: ids[i] < ids[j]
  {
    if |orders| == 0 then []
    else
      var n := |orders| - 1;
      var rest := DueIds(orders[..n], now);
      assert forall i | 0 <= i < |rest| :: rest[i] in rest;
      rest + if orders[n].active && orders[n].nextRun <= now then [n] else []
  }

  /** `listDueStandingOrders`: the first fifty. */
  function Due(orders: seq<StandingOrder>, now: nat): (ids: seq<nat>)
    ensures forall k | k in ids :: k < |orders| && orders[k].active && orders[k].nextRun <= now
    ensures forall i, j | 0 <= i < j < |ids| :: ids[i] < ids[j]
  {
    var ids := DueIds(orders, now);
    var first := ids[..Min(DUE_LIMIT, |ids|)];
    assert forall k | k in first :: k in ids;
    first
  }

  /** `markStandingRan` with `bumpStandingOrder`. */
  function MarkRan(s: State, id: nat, cadence: Cadence, now: nat): State {
    if id < |s.orders| then s.(orders := s.orders[id := s.orders[id].(nextRun := NextStandingRun(cadence, now))]) else s
  }

  function Target(order: StandingOrder): string {
    order.toPhone.Or(order.toLabel)
  }

  predicate AsksForPin(r: Reply) {
    r == NeedsPin || r == WrongPin
  }

  function Asking(order: StandingOrder, env: Env): Message {
    Message(SendTo(order.amount, Target(order), ""), None, env)
  }

  function Confirming(pin: string, env: Env): Message {
    Message(ConfirmWith(Some(pin)), None, env)
  }

  /** The texts the job builds: "send A usdt to T" and "CONFIRM P". */
  function AskingText(order: StandingOrder): string {
    PayText(AmountText(order.amount), Target(order))
  }

  /** What a text says, as far as it asks for a payment or gives a PIN. */
  function Heard(text: string): Option<Intent> {
    match Read(text)
    case Payment(amount, to) => if Micro(amount).Some? then Some(SendTo(Micro(amount).value, to, "")) else None
    case Taken(_) => if PinTexts.ReadPin(text).Some? then Some(ConfirmWith(PinTexts.ReadPin(text))) else None
  }

  /** What the job says is what its texts mean: for every order to a number, of any amount, and every PIN of
      four to six digits. */
  lemma TheJobSaysItsTexts(order: StandingOrder, pin: string, env: Env)
    requires IsTarget(Target(order)) && PinTexts.IsPin(pin)
    ensures Heard(AskingText(order)) == Some(Asking(order, env).intent)
    ensures Heard(PinTexts.ConfirmText(pin)) == Some(Confirming(pin, env).intent)
  {
    hide Read, PinTexts.ReadPin, PinTexts.ConfirmText, Micro, PayText, AmountText;
    PrintedPaymentsReadBack(order.amount, Target(order));
    PinTexts.ConfirmTextsReadBack(pin);
    PinTexts.ConfirmsAreNoPayments(PinTexts.ConfirmText(pin));
  }

  /** How the handlers treat one due order: they answer, or one of them throws and leaves some tables. */
  datatype Turn = Answers(env: Env) | Throws(left: State)

  /** One due order: say "send A usdt to T" for its owner, confirm with the operator's PIN if asked,
      then mark it run.  Without a PIN to give, or after an error, it stays due. */
  function PayOrderFx(c: Config, s: State, now: nat, id: nat, order: StandingOrder, pin: string, turn: Turn): (State, bool)
    requires |c.tiers| == 3
  {
    match turn
    case Throws(left) => (left, false)
    case Answers(env) =>
      var (t, r) := HandleFx(c, s, now, order.phone, Asking(order, env));
      if !AsksForPin(r) then (MarkRan(t, id, order.cadence, now), true)
      else if pin == "" then (t, false)
      else
        var u := HandleFx(c, t, now, order.phone, Confirming(pin, env)).0;
        (MarkRan(u, id, order.cadence, now), true)
  }

  function TurnAt(turns: seq<Turn>, k: nat): Turn {
    if k < |turns| then turns[k] else Answers(Env(Threw(0), Threw(0), false, 0, [], ""))
  }

  /** The loop over the rows the listing returned, copied at that time. */
  function PayDueFx(c: Config, s: State, now: nat, ids: seq<nat>, rows: seq<StandingOrder>, pin: string, turns: seq<Turn>, n: nat): (State, nat)
    requires |c.tiers| == 3 && n <= |ids| && forall k | k in ids :: k < |rows|
  {
    if n == 0 then (s, 0)
    else
      assert ids[n - 1] in ids;
      var (t, ran) := PayDueFx(c, s, now, ids, rows, pin, turns, n - 1);
      var (u, ok) := PayOrderFx(c, t, now, ids[n - 1], rows[ids[n - 1]], pin, TurnAt(turns, n - 1));
      (u, ran + if ok then 1 else 0)
  }

  /** `runDueStanding`. */
  function RunDueFx(c: Config, s: State, now: nat, pin: string, turns: seq<Turn>): (State, nat)
    requires |c.tiers| == 3
  {
    var ids := Due(s.orders, now);
    PayDueFx(c, s, now, ids, s.orders, pin, turns, |ids|)
  }

  method MarkStandingRan(desk: Desk, id: nat, cadence: Cadence, now: nat)
    modifies desk
    ensures desk.Now() == MarkRan(old(desk.Now()), id, cadence, now)
  {
    if id < |desk.orders| {
      desk.orders := desk.orders[id := desk.orders[id].(nextRun := NextStandingRun(cadence, now))];
    }
  }

  /** The catch of the loop: whatever an interrupted handler wrote stays. */
  method Interrupted(desk: Desk, left: State)
    modifies desk
    ensures desk.Now() == left
  {
    desk.users, desk.sessions, desk.idem, desk.ledger := left.users, left.sessions, left.idem, left.ledger;
    desk.claims, desk.rules, desk.locks, desk.orders := left.claims, left.rules, left.locks, left.orders;
    desk.contacts, desk.names, desk.links := left.contacts, left.names, left.links;
    desk.balance, desk.nextKey := left.balance, left.nextKey;
  }

  method PayOrder(desk: Desk, c: Config, now: nat, id: nat, order: StandingOrder, pin: string, turn: Turn) returns (ok: bool)
    requires |c.tiers| == 3
    modifies desk
    ensures (desk.Now(), ok) == PayOrderFx(c, old(desk.Now()), now, id, order, pin, turn)
  {
    match turn {
      case Throws(left) =>
        Interrupted(desk, left);
        ok := false;
      case Answers(env) =>
        var r := Handlers.HandleMessage(desk, c, now, order.phone, Asking(order, env));
        if AsksForPin(r) {
          if pin == "" {
            return false;
          }
          r := Handlers.HandleMessage(desk, c, now, order.phone, Confirming(pin, env));
        }
        MarkStandingRan(desk, id, order.cadence, now);
        ok := true;
    }
  }

  method RunDueStanding(desk: Desk, c: Config, now: nat, pin: string, turns: seq<Turn>) returns (ran: nat)
    requires |c.tiers| == 3
    modifies desk
    ensures (desk.Now(), ran) == RunDueFx(c, old(desk.Now()), now, pin, turns)
  {
    hide PayOrderFx, MarkRan;
    var rows := desk.orders;
    var due := Due(rows, now);
    ran := 0;
    for i := 0 to |due|
      invariant (desk.Now(), ran) == PayDueFx(c, old(desk.Now()), now, due, rows, pin, turns, i)
    {
      assert due[i] in due;
      var ok := PayOrder(desk, c, now, due[i], rows[due[i]], pin, TurnAt(turns, i));
      if ok {
        ran := ran + 1;
      }
    }
  }

  // ----- ticks, interleaved with everything else -----

  /** A run of a standing order. */
  datatype Mark = Mark(id: nat, at: nat)

  datatype Event =
    | Tick(at: nat)                     // the timer fires
    | Asked(at: nat, env: Env)          // the job says its next order
    | Confirmed(at: nat, env: Env)      // the job gives the PIN that was asked for
    | Failed(at: nat, left: State)      // a handler of the job throws
    | Finished(at: nat)                 // the job ends, also after an error
    | Outside(at: nat, i: Input)        // anybody else acts

  /** The process: the `running` flag, what is left of the list the running job took, the rows as they
      were then, whether a PIN was just asked for, the tables, and every mark made so far. */
  datatype Process = Process(running: bool, queue: seq<nat>, rows: seq<StandingOrder>, asked: bool, tables: State, marks: seq<Mark>)

  /** The order at the head of the list is marked run. */
  function Marked(w: Process, at: nat): Process
    requires w.queue != [] && w.queue[0] < |w.rows|
  {
    var id := w.queue[0];
    w.(tables := MarkRan(w.tables, id, w.rows[id].cadence, at), queue := w.queue[1..], asked := false, marks := w.marks + [Mark(id, at)])
  }

  predicate Serving(w: Process) {
    w.running && w.queue != [] && w.queue[0] < |w.rows|
  }

  function Ask(c: Config, pin: string, w: Process, at: nat, env: Env): Process
    requires |c.tiers| == 3 && Serving(w)
  {
    var order := w.rows[w.queue[0]];
    var (t, r) := HandleFx(c, w.tables, at, order.phone, Asking(order, env));
    if !AsksForPin(r) then Marked(w.(tables := t), at)
    else if pin == "" then w.(tables := t, queue := w.queue[1..])
    else w.(tables := t, asked := true)
  }

  function Confirm(c: Config, pin: string, w: Process, at: nat, env: Env): Process
    requires |c.tiers| == 3 && Serving(w)
  {
    Marked(w.(tables := HandleFx(c, w.tables, at, w.rows[w.queue[0]].phone, Confirming(pin, env)).0), at)
  }

  /** A handler that throws can leave any tables in which no standing order was lost or rescheduled:
      handlers only open and cancel orders. */
  ghost function Happen(c: Config, pin: string, w: Process, e: Event): Process
    requires |c.tiers| == 3
  {
    match e
    case Tick(at) =>
      if w.running then w
      else w.(running := true, queue := Due(w.tables.orders, at), rows := w.tables.orders, asked := false)
    case Asked(at, env) => if Serving(w) && !w.asked then Ask(c, pin, w, at, env) else w
    case Confirmed(at, env) => if Serving(w) && w.asked then Confirm(c, pin, w, at, env) else w
    case Failed(_, left) =>
      if Serving(w) && OrdersKept(w.tables, left) then w.(tables := left, queue := w.queue[1..], asked := false) else w
    case Finished(_) => w.(running := false, queue := [], asked := false)
    case Outside(_, i) => w.(tables := Step(c, w.tables, i))
  }

  ghost predicate Follows(c: Config, pin: string, events: seq<Event>, w: seq<Process>, k: nat)
    requires |c.tiers| == 3 && k < |events| && |w| == |events| + 1
  {
    w[k + 1] == Happen(c, pin, w[k], events[k])
  }

  /** Events in the order of their times, and the process between them. */
  ghost predicate History(c: Config, pin: string, events: seq<Event>, w: seq<Process>) {
    && |c.tiers| == 3
    && (forall i, j | 0 <= i < j < |events| :: events[i].at <= events[j].at)
    && |w| == |events| + 1 && w[0] == Process(false, [], [], false, EMPTY, [])
    && forall k {:trigger Follows(c, pin, events, w, k)} | 0 <= k < |events| :: Follows(c, pin, events, w, k)
  }

  /** The listed orders are still in the table as they were listed, distinct and due. */
  ghost predicate Listed(w: Process, now: nat) {
    && (forall i | 0 <= i < |w.queue| ::
          && w.queue[i] < |w.rows| && w.queue[i] < |w.tables.orders|
          && w.tables.orders[w.queue[i]].nextRun <= now
          && w.tables.orders[w.queue[i]].cadence == w.rows[w.queue[i]].cadence)
    && (forall i, j | 0 <= i < j < |w.queue| :: w.queue[i] < w.queue[j])
  }

  /** Every run of an order has moved its schedule on. */
  ghost predicate MovedOn(w: Process) {
    forall m | 0 <= m < |w.marks| ::
      && w.marks[m].id < |w.tables.orders|
      && NextStandingRun(w.tables.orders[w.marks[m].id].cadence, w.marks[m].at) <= w.tables.orders[w.marks[m].id].nextRun
  }

  ghost predicate Scheduled(w: Process, now: nat) {
    Listed(w, now) && MovedOn(w)
  }

  /** Two runs of one order are a calendar month or a week apart. */
  predicate Apart(cadence: Cadence, earlier: nat, later: nat) {
    if cadence == Monthly then MonthIndex(earlier) < MonthIndex(later) else earlier + WEEK_MS <= later
  }

  ghost predicate RunsApart(w: Process) {
    forall m, n | 0 <= m < n < |w.marks| && w.marks[m].id == w.marks[n].id ::
      w.marks[n].id < |w.tables.orders| && Apart(w.tables.orders[w.marks[n].id].cadence, w.marks[m].at, w.marks[n].at)
  }

  /** Schedules and cadences are as they were. */
  lemma OthersKeepSchedule(w: Process, v: Process, at: nat)
    requires Scheduled(w, at) && RunsApart(w) && OrdersKept(w.tables, v.tables) && v.marks == w.marks
    requires v.rows == w.rows && (v.queue == w.queue || (w.queue != [] && v.queue == w.queue[1..]) || v.queue == [])
    ensures Scheduled(v, at) && RunsApart(v)
  {
    hide NextStandingRun, MonthIndex;
    forall k | 0 <= k < |w.tables.orders|
      ensures v.tables.orders[k].nextRun == w.tables.orders[k].nextRun && v.tables.orders[k].cadence == w.tables.orders[k].cadence
    {
      assert OrderKept(w.tables.orders[k], v.tables.orders[k]);
    }
  }

  /** Marking the head of the list. */
  lemma MarkingKeepsSchedule(w: Process, at: nat)
    requires Scheduled(w, at) && RunsApart(w) && Serving(w)
    ensures Scheduled(Marked(w, at), at) && RunsApart(Marked(w, at))
  {
    hide NextStandingRun, MonthIndex;
    var id := w.queue[0];
    var cadence := w.tables.orders[id].cadence;
    var v := Marked(w, at);
    assert v.tables.orders == w.tables.orders[id := w.tables.orders[id].(nextRun := NextStandingRun(cadence, at))];
    NextRunIsLater(cadence, at, NextStandingRun(cadence, at));
    forall m | 0 <= m < |w.marks| && w.marks[m].id == id
      ensures Apart(cadence, w.marks[m].at, at)
      ensures NextStandingRun(cadence, w.marks[m].at) <= NextStandingRun(cadence, at)
    {
      NextRunIsLater(cadence, w.marks[m].at, at);
    }
  }

  lemma TickKeepsSchedule(c: Config, pin: string, w: Process, at: nat)
    requires |c.tiers| == 3 && Scheduled(w, at) && RunsApart(w)
    ensures Scheduled(Happen(c, pin, w, Tick(at)), at) && RunsApart(Happen(c, pin, w, Tick(at)))
  {
    hide NextStandingRun, MonthIndex;
    var ids := Due(w.tables.orders, at);
    assert forall i | 0 <= i < |ids| :: ids[i] in ids;
  }

  /** What a message of the job leaves of the orders. */
  lemma HandlingKeepsSchedule(c: Config, w: Process, at: nat, raw: string, m: Message)
    requires |c.tiers| == 3 && Scheduled(w, at) && RunsApart(w)
    ensures var v := w.(tables := HandleFx(c, w.tables, at, raw, m).0);
            Scheduled(v, at) && RunsApart(v)
  {
    hide HandleFx, Scheduled, RunsApart, Registers.Registers;
    var t := HandleFx(c, w.tables, at, raw, m).0;
    HandlingRegisters(c, w.tables, at, raw, m);
    RegisteringKeepsOrders(w.tables, t, NormalizePhone(raw), ExpandDigits(w.tables, NormalizePhone(raw), m.intent));
    OthersKeepSchedule(w, w.(tables := t), at);
  }

  lemma AskingKeepsSchedule(c: Config, pin: string, w: Process, at: nat, env: Env)
    requires |c.tiers| == 3 && Scheduled(w, at) && RunsApart(w) && Serving(w)
    ensures Scheduled(Ask(c, pin, w, at, env), at) && RunsApart(Ask(c, pin, w, at, env))
  {
    hide HandleFx, Scheduled, RunsApart, OrdersKept, Marked;
    var order := w.rows[w.queue[0]];
    var (t, r) := HandleFx(c, w.tables, at, order.phone, Asking(order, env));
    HandlingKeepsSchedule(c, w, at, order.phone, Asking(order, env));
    var v := w.(tables := t);
    if !AsksForPin(r) {
      MarkingKeepsSchedule(v, at);
    } else {
      SameOrdersKept(t);
      OthersKeepSchedule(v, Ask(c, pin, w, at, env), at);
    }
  }

  lemma SameOrdersKept(s: State)
    ensures OrdersKept(s, s)
  {
  }

  lemma ConfirmingKeepsSchedule(c: Config, pin: string, w: Process, at: nat, env: Env)
    requires |c.tiers| == 3 && Scheduled(w, at) && RunsApart(w) && Serving(w)
    ensures Scheduled(Confirm(c, pin, w, at, env), at) && RunsApart(Confirm(c, pin, w, at, env))
  {
    hide HandleFx, Scheduled, RunsApart, Marked;
    var raw := w.rows[w.queue[0]].phone;
    HandlingKeepsSchedule(c, w, at, raw, Confirming(pin, env));
    MarkingKeepsSchedule(w.(tables := HandleFx(c, w.tables, at, raw, Confirming(pin, env)).0), at);
  }

  lemma EventKeepsSchedule(c: Config, pin: string, w: Process, e: Event)
    requires |c.tiers| == 3 && Scheduled(w, e.at) && RunsApart(w)
    ensures Scheduled(Happen(c, pin, w, e), e.at) && RunsApart(Happen(c, pin, w, e))
  {
    hide Scheduled, RunsApart, Ask, Confirm, Step, OrdersKept;
    match e
    case Tick(at) => TickKeepsSchedule(c, pin, w, at);
    case Asked(at, env) =>
      if Serving(w) && !w.asked {
        AskingKeepsSchedule(c, pin, w, at, env);
      }
    case Confirmed(at, env) =>
      if Serving(w) && w.asked {
        ConfirmingKeepsSchedule(c, pin, w, at, env);
      }
    case Failed(at, left) =>
      SameOrdersKept(w.tables);
      OthersKeepSchedule(w, Happen(c, pin, w, e), at);
    case Finished(at) =>
      SameOrdersKept(w.tables);
      OthersKeepSchedule(w, Happen(c, pin, w, e), at);
    case Outside(at, i) =>
      StepsKeepOrders(c, w.tables, i);
      OthersKeepSchedule(w, Happen(c, pin, w, e), at);
  }

  lemma NothingScheduled()
    ensures Scheduled(Process(false, [], [], false, EMPTY, []), 0) && RunsApart(Process(false, [], [], false, EMPTY, []))
  {
  }

  lemma ScheduledLater(w: Process, now: nat, later: nat)
    requires Scheduled(w, now) && now <= later
    ensures Scheduled(w, later)
  {
    hide NextStandingRun;
  }

  lemma {:induction false} EventsKeepSchedule(c: Config, pin: string, events: seq<Event>, w: seq<Process>, k: nat)
    requires History(c, pin, events, w) && k <= |events|
    ensures Scheduled(w[k], if k == 0 then 0 else events[k - 1].at) && RunsApart(w[k])
  {
    hide Happen, Scheduled, RunsApart;
    if k == 0 {
      NothingScheduled();
    } else {
      EventsKeepSchedule(c, pin, events, w, k - 1);
      assert Follows(c, pin, events, w, k - 1);
      ScheduledLater(w[k - 1], if k == 1 then 0 else events[k - 2].at, events[k - 1].at);
      EventKeepsSchedule(c, pin, w[k - 1], events[k - 1]);
    }
  }

  /** However ticks, slow jobs, errors and everything else that happens to the tables interleave, a
      monthly order is marked run at most once per UTC calendar month, and a weekly one at most once in
      seven days. */
  lemma StandingOrdersRunOncePerPeriod(c: Config, pin: string, events: seq<Event>, w: seq<Process>, k: nat, m: nat, n: nat)
    requires History(c, pin, events, w) && k <= |events| && m < n < |w[k].marks| && w[k].marks[m].id == w[k].marks[n].id
    ensures w[k].marks[m].id < |w[k].tables.orders|
    ensures var cadence := w[k].tables.orders[w[k].marks[m].id].cadence;
            && (cadence == Monthly ==> MonthIndex(w[k].marks[m].at) < MonthIndex(w[k].marks[n].at))
            && (cadence == Weekly ==> w[k].marks[m].at + WEEK_MS <= w[k].marks[n].at)
  {
    hide NextStandingRun, MonthIndex, Happen;
    EventsKeepSchedule(c, pin, events, w, k);
  }

  // ----- a job that nobody interrupts -----

  /** The events of one order: the message, and the PIN if it is asked for. */
  ghost function Serve(c: Config, pin: string, w: Process, at: nat, turn: Turn): Process
    requires |c.tiers| == 3
  {
    match turn
    case Throws(left) => Happen(c, pin, w, Failed(at, left))
    case Answers(env) =>
      var v := Happen(c, pin, w, Asked(at, env));
      if v.asked then Happen(c, pin, v, Confirmed(at, env)) else v
  }

  ghost function ServeAll(c: Config, pin: string, w: Process, at: nat, turns: seq<Turn>, n: nat): Process
    requires |c.tiers| == 3
  {
    if n == 0 then w else Serve(c, pin, ServeAll(c, pin, w, at, turns, n - 1), at, TurnAt(turns, n - 1))
  }

  lemma ServingPaysTheOrder(c: Config, pin: string, w: Process, at: nat, turn: Turn)
    requires |c.tiers| == 3 && Serving(w) && !w.asked && (turn.Throws? ==> OrdersKept(w.tables, turn.left))
    ensures var id := w.queue[0];
            var (t, ok) := PayOrderFx(c, w.tables, at, id, w.rows[id], pin, turn);
            Serve(c, pin, w, at, turn) == w.(tables := t, queue := w.queue[1..], marks := w.marks + if ok then [Mark(id, at)] else [])
  {
    hide HandleFx, MarkRan;
  }

  /** The job has served its first n orders. */
  ghost predicate Served(c: Config, pin: string, w: Process, v: Process, at: nat, ids: seq<nat>, turns: seq<Turn>, n: nat)
    requires |c.tiers| == 3 && n <= |ids| && forall k | k in ids :: k < |w.tables.orders|
  {
    && v.running && !v.asked && v.queue == ids[n..] && v.rows == w.tables.orders
    && v.tables == PayDueFx(c, w.tables, at, ids, w.tables.orders, pin, turns, n).0
    && |v.marks| == |w.marks| + PayDueFx(c, w.tables, at, ids, w.tables.orders, pin, turns, n).1
  }

  /** Handlers that throw leave no order lost or rescheduled. */
  ghost predicate KeepOrders(c: Config, s: State, at: nat, ids: seq<nat>, pin: string, turns: seq<Turn>)
    requires |c.tiers| == 3 && forall k | k in ids :: k < |s.orders|
  {
    forall n | 0 <= n < |ids| && TurnAt(turns, n).Throws? ::
      OrdersKept(PayDueFx(c, s, at, ids, s.orders, pin, turns, n).0, TurnAt(turns, n).left)
  }

  lemma OneMoreServed(c: Config, pin: string, w: Process, v: Process, at: nat, ids: seq<nat>, turns: seq<Turn>, n: nat)
    requires |c.tiers| == 3 && n < |ids| && (forall k | k in ids :: k < |w.tables.orders|) && ids[n] in ids
    requires Served(c, pin, w, v, at, ids, turns, n) && KeepOrders(c, w.tables, at, ids, pin, turns)
    ensures Served(c, pin, w, Serve(c, pin, v, at, TurnAt(turns, n)), at, ids, turns, n + 1)
  {
    hide PayOrderFx, Serve, OrdersKept;
    assert ids[n..][0] == ids[n] && ids[n..][1..] == ids[n + 1..];
    ServingPaysTheOrder(c, pin, v, at, TurnAt(turns, n));
  }

  lemma JobStarts(c: Config, pin: string, w: Process, at: nat, turns: seq<Turn>)
    requires |c.tiers| == 3 && !w.running
    ensures Served(c, pin, w, Happen(c, pin, w, Tick(at)), at, Due(w.tables.orders, at), turns, 0)
  {
    hide PayOrderFx, Due;
  }

  lemma {:induction false} JobServes(c: Config, pin: string, w: Process, at: nat, turns: seq<Turn>, n: nat)
    requires |c.tiers| == 3 && !w.running && n <= |Due(w.tables.orders, at)|
    requires KeepOrders(c, w.tables, at, Due(w.tables.orders, at), pin, turns)
    ensures Served(c, pin, w, ServeAll(c, pin, Happen(c, pin, w, Tick(at)), at, turns, n), at, Due(w.tables.orders, at), turns, n)
  {
    hide PayOrderFx, Serve, Due, OrdersKept, Served, Happen, KeepOrders;
    var ids := Due(w.tables.orders, at);
    if n == 0 {
      JobStarts(c, pin, w, at, turns);
    } else {
      JobServes(c, pin, w, at, turns, n - 1);
      assert ids[n - 1] in ids;
      OneMoreServed(c, pin, w, ServeAll(c, pin, Happen(c, pin, w, Tick(at)), at, turns, n - 1), at, ids, turns, n - 1);
    }
  }

  /** A job that nobody interrupts, taken event by event, does to the tables exactly what the loop of
      `RunDueStanding` does, and makes one mark for each order that the loop counts. */
  lemma UndisturbedJobIsTheLoop(c: Config, pin: string, w: Process, at: nat, turns: seq<Turn>)
    requires |c.tiers| == 3 && !w.running
    requires KeepOrders(c, w.tables, at, Due(w.tables.orders, at), pin, turns)
    ensures var v := ServeAll(c, pin, Happen(c, pin, w, Tick(at)), at, turns, |Due(w.tables.orders, at)|);
            var done := Happen(c, pin, v, Finished(at));
            && !done.running && v.queue == []
            && done.tables == RunDueFx(c, w.tables, at, pin, turns).0
            && |done.marks| == |w.marks| + RunDueFx(c, w.tables, at, pin, turns).1
  {
    hide PayDueFx, Due;
    JobServes(c, pin, w, at, turns, |Due(w.tables.orders, at)|);
  }

  /** What a finished job leaves behind: an order it marked is not due again now. */
  lemma MarkedOrdersAreNotDue(s: State, id: nat, cadence: Cadence, now: nat)
    requires id < |s.orders|
    ensures id !in Due(MarkRan(s, id, cadence, now).orders, now)
  {
    NextRunIsLater(cadence, now, NextStandingRun(cadence, now));
  }
}
