/** The settlement protocol with handlers interleaved at every await.

    A confirmed payment reads the pending slot, checks the PIN, inserts an idempotency row if there is
    none, moves the money, books it, empties the slot and saves its answer; each of these is a
    separate database or network call (orchestrator/src/lib/pipeline.ts `executeSend` and its
    siblings, orchestrator/src/lib/db.ts `claimIdempotency`, `saveIdempotentResult`).  Any number of
    confirming, cancelling, memo and requesting handlers take these steps in any order, any call may
    throw, and a transfer may throw after the money moved. */
module Settlement {
  import opened Text
  import opened Tables

  datatype Sort = Sending | Holding | Swapping | ToppingUp

  /** A pending payment, as stored in the slot and as copied by whoever read it. */
  datatype Order = Order(sort: Sort, phone: Phone, key: Key, amount: nat, payee: string, payeePhone: Option<Phone>, memo: string)

  predicate SameOrder(a: Order, b: Order) {
    a.(memo := "") == b.(memo := "")
  }

  /** The answer of an order that went through. */
  datatype Result = Result(key: Key, amount: nat, payee: string, memo: string)

  function ResultOf(o: Order): Result {
    Result(o.key, o.amount, o.payee, o.memo)
  }

  datatype Row = Underway | Settled(result: Result)

  /** Money that left a wallet, and a ledger row of the payer; both remember the order's key. */
  datatype Move = Move(key: Key, from: Phone, amount: nat, payee: string)
  datatype Entry = Entry(key: Key, phone: Phone, kind: Kind, amount: nat, payee: string)

  datatype Answer = Finished(key: Key, result: Result) | Busy(key: Key) | Failed | Nothing

  /** What a handler is about to do next. */
  datatype Task =
    | Asking(order: Order)                    // a request that passed the gate, its key not drawn yet
    | Storing(order: Order)                   // about to write the slot
    | Emptying(phone: Phone)                  // cancel, greeting, or too many wrong PINs
    | ReadingMemo(phone: Phone, memo: string) // about to read the slot for a voice note
    | Rewriting(order: Order)                 // about to write the copy back
    | Reading(phone: Phone)                   // a confirmation, about to read the slot
    | Checking(order: Order)                  // about to check the PIN
    | Claiming(order: Order)                  // about to insert the idempotency row
    | Looking(order: Order)                   // the insert met a row; about to read it
    | Moving(order: Order)                    // about to move the money
    | Booking(order: Order)                   // money moved; about to add the payer's row
    | Mirroring(order: Order)                 // about to add the payee's row
    | Clearing(order: Order)                  // about to empty the slot
    | Saving(order: Order)                    // about to save the answer
    | Done(answer: Answer)

  datatype World = World(
    slot: map<Phone, Order>,
    idem: map<Key, Row>,
    moves: seq<Move>,
    entries: seq<Entry>,
    minted: seq<Order>,   // the request that drew each key
    tasks: seq<Task>)

  const START := World(map[], map[], [], [], [], [])

  /** How the next call of a handler ends. */
  datatype Turn = Goes | WrongPin | LocksOut | Throws | ThrowsAfterMoving

  datatype Action = Begin(task: Task) | Run(index: nat, turn: Turn)

  // ----- the steps -----

  function PayerKind(sort: Sort): Kind {
    match sort
    case Sending => Send
    case Holding => EscrowHold
    case Swapping => Swap
    case ToppingUp => Airtime
  }

  function MoveOf(o: Order): Move {
    Move(o.key, o.phone, o.amount, o.payee)
  }

  function EntryOf(o: Order): Entry {
    Entry(o.key, o.phone, PayerKind(o.sort), o.amount, o.payee)
  }

  function Put(w: World, i: nat, t: Task): World
    requires i < |w.tasks|
  {
    w.(tasks := w.tasks[i := t])
  }

  /** Handlers that only touch the slot. */
  predicate SlotTask(t: Task) {
    t.Asking? || t.Storing? || t.Emptying? || t.ReadingMemo? || t.Rewriting? || t.Reading?
  }

  function SlotStep(w: World, i: nat): World
    requires i < |w.tasks| && SlotTask(w.tasks[i])
  {
    match w.tasks[i]
    case Asking(o) => Put(w.(minted := w.minted + [o.(key := |w.minted|)]), i, Storing(o.(key := |w.minted|)))
    case Storing(o) => Put(w.(slot := w.slot[o.phone := o]), i, Done(Nothing))
    case Emptying(p) => Put(w.(slot := w.slot - {p}), i, Done(Nothing))
    case ReadingMemo(p, memo) =>
      if p in w.slot && (w.slot[p].sort == Sending || w.slot[p].sort == Holding) then Put(w, i, Rewriting(w.slot[p].(memo := memo)))
      else Put(w, i, Done(Nothing))
    case Rewriting(o) => Put(w.(slot := w.slot[o.phone := o]), i, Done(Nothing))
    case Reading(p) => if p in w.slot then Put(w, i, Checking(w.slot[p])) else Put(w, i, Done(Nothing))
    case _ => w
  }

  /** The two queries of `claimIdempotency`. */
  function ClaimStep(w: World, i: nat): World
    requires i < |w.tasks| && (w.tasks[i].Claiming? || w.tasks[i].Looking?)
  {
    var o := w.tasks[i].order;
    if w.tasks[i].Claiming? then
      if o.key in w.idem then Put(w, i, Looking(o))
      else Put(w.(idem := w.idem[o.key := Underway]), i, Moving(o))
    else if o.key !in w.idem then Put(w, i, Moving(o)) // the "race unlikely" branch
    else if w.idem[o.key].Underway? then Put(w, i, Done(Busy(o.key)))
    else Put(w, i, Done(Finished(o.key, w.idem[o.key].result)))
  }

  predicate PayTask(t: Task) {
    t.Moving? || t.Booking? || t.Mirroring? || t.Clearing? || t.Saving?
  }

  function PayStep(w: World, i: nat): World
    requires i < |w.tasks| && PayTask(w.tasks[i])
  {
    var o := w.tasks[i].order;
    match w.tasks[i]
    case Moving(_) => Put(w.(moves := w.moves + [MoveOf(o)]), i, Booking(o))
    case Booking(_) =>
      Put(w.(entries := w.entries + [EntryOf(o)]), i, if o.sort == Sending && o.payeePhone.Some? then Mirroring(o) else Clearing(o))
    case Mirroring(_) =>
      Put(w.(entries := w.entries + [Entry(o.key, o.payeePhone.Or(o.phone), Receive, o.amount, o.phone)]), i, Clearing(o))
    case Clearing(_) => Put(w.(slot := w.slot - {o.phone}), i, Saving(o))
    case Saving(_) => Put(w.(idem := w.idem[o.key := Settled(ResultOf(o))]), i, Done(Finished(o.key, ResultOf(o))))
    case _ => w
  }

  /** A call that throws ends its handler; the row it claimed stays in flight. */
  function ThrowStep(w: World, i: nat, moved: bool): World
    requires i < |w.tasks|
  {
    if w.tasks[i].Done? then w
    else if moved && w.tasks[i].Moving? then Put(w.(moves := w.moves + [MoveOf(w.tasks[i].order)]), i, Done(Failed))
    else Put(w, i, Done(Failed))
  }

  function RunStep(w: World, i: nat, turn: Turn): World
    requires i < |w.tasks|
  {
    var t := w.tasks[i];
    if turn.Throws? || turn.ThrowsAfterMoving? then ThrowStep(w, i, turn.ThrowsAfterMoving?)
    else if SlotTask(t) then SlotStep(w, i)
    else if t.Checking? then
      Put(w, i, if turn.Goes? then Claiming(t.order) else if turn.LocksOut? then Emptying(t.order.phone) else Done(Nothing))
    else if t.Claiming? || t.Looking? then ClaimStep(w, i)
    else if PayTask(t) then PayStep(w, i)
    else w
  }

  /** Handlers start only as requests, cancellations, voice notes and confirmations. */
  predicate CanBegin(t: Task) {
    t.Asking? || t.Emptying? || t.ReadingMemo? || t.Reading?
  }

  function Step(w: World, a: Action): World {
    match a
    case Begin(t) => if CanBegin(t) then w.(tasks := w.tasks + [t]) else w
    case Run(i, turn) => if i < |w.tasks| then RunStep(w, i, turn) else w
  }

  function After(actions: seq<Action>): World {
    if actions == [] then START else Step(After(actions[..|actions| - 1]), actions[|actions| - 1])
  }

  // ----- what holds in every interleaving -----

  function Moves(moves: seq<Move>, key: Key): nat {
    if |moves| == 0 then 0
    else Moves(moves[..|moves| - 1], key) + if moves[|moves| - 1].key == key then 1 else 0
  }

  /** Rows of the payer for one key; the payee's mirror row is not one. */
  function PayerRows(entries: seq<Entry>, key: Key): nat {
    if |entries| == 0 then 0
    else
      var e := entries[|entries| - 1];
      PayerRows(entries[..|entries| - 1], key) + if e.key == key && e.kind != Receive then 1 else 0
  }

  lemma OneMoreMove(moves: seq<Move>, m: Move, key: Key)
    ensures Moves(moves + [m], key) == Moves(moves, key) + if m.key == key then 1 else 0
  {
    assert (moves + [m])[..|moves|] == moves;
  }

  lemma OneMoreEntry(entries: seq<Entry>, e: Entry, key: Key)
    ensures PayerRows(entries + [e], key) == PayerRows(entries, key) + if e.key == key && e.kind != Receive then 1 else 0
  {
    assert (entries + [e])[..|entries|] == entries;
  }

  /** The order is the one that drew its key, up to the memo. */
  predicate Genuine(w: World, o: Order) {
    o.key < |w.minted| && SameOrder(o, w.minted[o.key])
  }

  /** The order a task carries, once it has a key. */
  predicate Carries(t: Task) {
    t.Storing? || t.Rewriting? || t.Checking? || t.Claiming? || t.Looking? || PayTask(t)
  }

  ghost predicate TaskOk(w: World, t: Task) {
    && (Carries(t) ==> Genuine(w, t.order))
    && (t.Looking? ==> t.order.key in w.idem)
    && (PayTask(t) ==>
          && t.order.key in w.idem && w.idem[t.order.key] == Underway
          && Moves(w.moves, t.order.key) == (if t.Moving? then 0 else 1)
          && PayerRows(w.entries, t.order.key) == (if t.Moving? || t.Booking? then 0 else 1))
    && (t.Done? && t.answer.Finished? ==>
          t.answer.key in w.idem && w.idem[t.answer.key] == Settled(t.answer.result))
  }

  ghost predicate KeyOk(w: World, key: Key) {
    && PayerRows(w.entries, key) <= Moves(w.moves, key) <= 1
    && (key !in w.idem ==> Moves(w.moves, key) == 0)
    && (key in w.idem ==> key < |w.minted|)
    && (key in w.idem && w.idem[key].Settled? ==>
          && PayerRows(w.entries, key) == 1
          && w.idem[key].result == ResultOf(w.minted[key].(memo := w.idem[key].result.memo)))
  }

  /** No two handlers pay for the same key. */
  ghost predicate OnePayer(w: World) {
    forall i, j | 0 <= i < j < |w.tasks| && PayTask(w.tasks[i]) && PayTask(w.tasks[j]) ::
      w.tasks[i].order.key != w.tasks[j].order.key
  }

  ghost predicate HistoryOk(w: World) {
    && (forall n | 0 <= n < |w.moves| :: w.moves[n].key < |w.minted| && w.moves[n] == MoveOf(w.minted[w.moves[n].key]))
    && (forall n | 0 <= n < |w.entries| && w.entries[n].kind != Receive ::
          w.entries[n].key < |w.minted| && w.entries[n] == EntryOf(w.minted[w.entries[n].key]))
    && (forall n | 0 <= n < |w.minted| :: w.minted[n].key == n)
  }

  ghost predicate Inv(w: World) {
    && (forall i | 0 <= i < |w.tasks| :: TaskOk(w, w.tasks[i]))
    && (forall key: Key :: KeyOk(w, key))
    && (forall p | p in w.slot :: Genuine(w, w.slot[p]))
    && OnePayer(w) && HistoryOk(w)
  }

  /** One handler moved on without touching money or idempotency rows. */
  lemma QuietMove(w: World, v: World, i: nat, t: Task)
    requires Inv(w) && i < |w.tasks|
    requires v == w.(slot := v.slot, tasks := w.tasks[i := t])
    requires forall p | p in v.slot :: Genuine(w, v.slot[p])
    requires TaskOk(w, t) && !PayTask(t)
    ensures Inv(v)
  {
    forall k | 0 <= k < |v.tasks| ensures TaskOk(v, v.tasks[k]) {
      assert TaskOk(w, v.tasks[k]);
    }
    forall key: Key ensures KeyOk(v, key) {
      assert KeyOk(w, key);
    }
  }

  lemma AskingKeepsInv(w: World, i: nat)
    requires Inv(w) && i < |w.tasks| && w.tasks[i].Asking?
    ensures Inv(SlotStep(w, i))
  {
    var v := SlotStep(w, i);
    forall o: Order | Genuine(w, o) ensures Genuine(v, o) {
    }
    forall k | 0 <= k < |v.tasks| ensures TaskOk(v, v.tasks[k]) {
      if k != i {
        assert TaskOk(w, w.tasks[k]);
      }
    }
    forall key: Key ensures KeyOk(v, key) {
      assert KeyOk(w, key);
    }
  }

  lemma SlotKeepsInv(w: World, i: nat)
    requires Inv(w) && i < |w.tasks| && SlotTask(w.tasks[i])
    ensures Inv(SlotStep(w, i))
  {
    var v := SlotStep(w, i);
    assert TaskOk(w, w.tasks[i]);
    if w.tasks[i].Asking? {
      AskingKeepsInv(w, i);
    } else {
      QuietMove(w, v, i, v.tasks[i]);
    }
  }

  /** Inserting the row makes this handler the only payer for the key. */
  lemma WinningKeepsInv(w: World, i: nat)
    requires Inv(w) && i < |w.tasks| && w.tasks[i].Claiming? && w.tasks[i].order.key !in w.idem
    ensures Inv(ClaimStep(w, i))
  {
    var v, o := ClaimStep(w, i), w.tasks[i].order;
    assert TaskOk(w, w.tasks[i]);
    assert KeyOk(w, o.key);
    forall k | 0 <= k < |v.tasks| ensures TaskOk(v, v.tasks[k]) {
      if k != i {
        assert TaskOk(w, w.tasks[k]);
      }
    }
    forall key: Key ensures KeyOk(v, key) {
      assert KeyOk(w, key);
    }
    forall j, k | 0 <= j < k < |v.tasks| && PayTask(v.tasks[j]) && PayTask(v.tasks[k])
      ensures v.tasks[j].order.key != v.tasks[k].order.key
    {
      assert TaskOk(w, w.tasks[j]) && TaskOk(w, w.tasks[k]);
    }
  }

  lemma ClaimKeepsInv(w: World, i: nat)
    requires Inv(w) && i < |w.tasks| && (w.tasks[i].Claiming? || w.tasks[i].Looking?)
    ensures Inv(ClaimStep(w, i))
  {
    assert TaskOk(w, w.tasks[i]);
    if w.tasks[i].Claiming? && w.tasks[i].order.key !in w.idem {
      WinningKeepsInv(w, i);
    } else {
      QuietMove(w, ClaimStep(w, i), i, ClaimStep(w, i).tasks[i]);
    }
  }

  /** Nobody else is concerned when the payer of a key moves on. */
  lemma OthersAreElsewhere(w: World, i: nat, k: nat)
    requires Inv(w) && i < |w.tasks| && k < |w.tasks| && k != i && PayTask(w.tasks[i]) && PayTask(w.tasks[k])
    ensures w.tasks[k].order.key != w.tasks[i].order.key
  {
    if k < i {
      assert PayTask(w.tasks[k]) && PayTask(w.tasks[i]);
    }
  }

  /** The payer of a key takes its next step: money, rows or the answer of that key change, nothing else. */
  lemma PayerKeepsInv(w: World, v: World, i: nat, t: Task, key: Key)
    requires Inv(w) && i < |w.tasks| && PayTask(w.tasks[i]) && key == w.tasks[i].order.key
    requires v == w.(slot := v.slot, idem := v.idem, moves := v.moves, entries := v.entries, tasks := w.tasks[i := t])
    requires forall p | p in v.slot :: Genuine(w, v.slot[p])
    requires v.idem.Keys == w.idem.Keys && forall k | k in w.idem && k != key :: v.idem[k] == w.idem[k]
    requires forall k: Key | k != key :: Moves(v.moves, k) == Moves(w.moves, k) && PayerRows(v.entries, k) == PayerRows(w.entries, k)
    requires KeyOk(v, key) && TaskOk(v, t) && HistoryOk(v) && (PayTask(t) ==> t.order.key == key)
    ensures Inv(v)
  {
    forall k | 0 <= k < |v.tasks| ensures TaskOk(v, v.tasks[k]) {
      if k != i {
        assert TaskOk(w, w.tasks[k]) && TaskOk(w, w.tasks[i]);
        if PayTask(w.tasks[k]) {
          OthersAreElsewhere(w, i, k);
        }
      }
    }
    forall k: Key ensures KeyOk(v, k) {
      assert KeyOk(w, k);
    }
    forall j, k | 0 <= j < k < |v.tasks| && PayTask(v.tasks[j]) && PayTask(v.tasks[k])
      ensures v.tasks[j].order.key != v.tasks[k].order.key
    {
      if j == i {
        OthersAreElsewhere(w, i, k);
      } else if k == i {
        OthersAreElsewhere(w, i, j);
      }
    }
  }

  lemma MovingKeepsInv(w: World, i: nat, t: Task)
    requires Inv(w) && i < |w.tasks| && w.tasks[i].Moving?
    requires t == Booking(w.tasks[i].order) || t == Done(Failed)
    ensures Inv(Put(w.(moves := w.moves + [MoveOf(w.tasks[i].order)]), i, t))
  {
    var o := w.tasks[i].order;
    assert TaskOk(w, w.tasks[i]);
    assert KeyOk(w, o.key);
    forall k ensures Moves(w.moves + [MoveOf(o)], k) == Moves(w.moves, k) + if k == o.key then 1 else 0 {
      OneMoreMove(w.moves, MoveOf(o), k);
    }
    PayerKeepsInv(w, Put(w.(moves := w.moves + [MoveOf(o)]), i, t), i, t, o.key);
  }

  lemma EntryKeepsInv(w: World, i: nat, e: Entry)
    requires Inv(w) && i < |w.tasks| && (w.tasks[i].Booking? || w.tasks[i].Mirroring?) && e.key == w.tasks[i].order.key
    requires if w.tasks[i].Booking? then e == EntryOf(w.tasks[i].order) else e.kind == Receive
    requires w.tasks[i].Booking? || e.kind == Receive
    ensures forall t | t == Mirroring(w.tasks[i].order) || t == Clearing(w.tasks[i].order) ::
              Inv(Put(w.(entries := w.entries + [e]), i, t))
  {
    var o := w.tasks[i].order;
    assert TaskOk(w, w.tasks[i]);
    assert KeyOk(w, o.key);
    forall k ensures PayerRows(w.entries + [e], k) == PayerRows(w.entries, k) + if k == o.key && e.kind != Receive then 1 else 0 {
      OneMoreEntry(w.entries, e, k);
    }
    forall t | t == Mirroring(o) || t == Clearing(o)
      ensures Inv(Put(w.(entries := w.entries + [e]), i, t))
    {
      PayerKeepsInv(w, Put(w.(entries := w.entries + [e]), i, t), i, t, o.key);
    }
  }

  lemma ClearingKeepsInv(w: World, i: nat)
    requires Inv(w) && i < |w.tasks| && w.tasks[i].Clearing?
    ensures Inv(PayStep(w, i))
  {
    var o := w.tasks[i].order;
    assert TaskOk(w, w.tasks[i]);
    assert KeyOk(w, o.key);
    PayerKeepsInv(w, PayStep(w, i), i, Saving(o), o.key);
  }

  lemma SavingKeepsInv(w: World, i: nat)
    requires Inv(w) && i < |w.tasks| && w.tasks[i].Saving?
    ensures Inv(PayStep(w, i))
  {
    var o := w.tasks[i].order;
    assert TaskOk(w, w.tasks[i]);
    assert KeyOk(w, o.key);
    PayerKeepsInv(w, PayStep(w, i), i, Done(Finished(o.key, ResultOf(o))), o.key);
  }

  lemma PayKeepsInv(w: World, i: nat)
    requires Inv(w) && i < |w.tasks| && PayTask(w.tasks[i])
    ensures Inv(PayStep(w, i))
  {
    var o := w.tasks[i].order;
    match w.tasks[i]
    case Moving(_) => MovingKeepsInv(w, i, Booking(o));
    case Booking(_) => EntryKeepsInv(w, i, EntryOf(o));
    case Mirroring(_) => EntryKeepsInv(w, i, Entry(o.key, o.payeePhone.Or(o.phone), Receive, o.amount, o.phone));
    case Clearing(_) => ClearingKeepsInv(w, i);
    case Saving(_) => SavingKeepsInv(w, i);
  }

  lemma ThrowKeepsInv(w: World, i: nat, moved: bool)
    requires Inv(w) && i < |w.tasks|
    ensures Inv(ThrowStep(w, i, moved))
  {
    if !w.tasks[i].Done? {
      if moved && w.tasks[i].Moving? {
        MovingKeepsInv(w, i, Done(Failed));
      } else {
        QuietMove(w, Put(w, i, Done(Failed)), i, Done(Failed));
      }
    }
  }

  lemma StepKeepsInv(w: World, a: Action)
    requires Inv(w)
    ensures Inv(Step(w, a))
  {
    match a
    case Begin(t) =>
      if CanBegin(t) {
        BeginKeepsInv(w, t);
      }
    case Run(i, turn) =>
      if i < |w.tasks| {
        var t := w.tasks[i];
        if turn.Throws? || turn.ThrowsAfterMoving? {
          ThrowKeepsInv(w, i, turn.ThrowsAfterMoving?);
        } else if SlotTask(t) {
          SlotKeepsInv(w, i);
        } else if t.Checking? {
          assert TaskOk(w, t);
          QuietMove(w, RunStep(w, i, turn), i, RunStep(w, i, turn).tasks[i]);
        } else if t.Claiming? || t.Looking? {
          ClaimKeepsInv(w, i);
        } else if PayTask(t) {
          PayKeepsInv(w, i);
        }
      }
  }

  lemma BeginKeepsInv(w: World, t: Task)
    requires Inv(w) && CanBegin(t)
    ensures Inv(w.(tasks := w.tasks + [t]))
  {
    var v := w.(tasks := w.tasks + [t]);
    forall k | 0 <= k < |v.tasks| ensures TaskOk(v, v.tasks[k]) {
      if k < |w.tasks| {
        assert TaskOk(w, w.tasks[k]);
      }
    }
    forall key: Key ensures KeyOk(v, key) {
      assert KeyOk(w, key);
    }
  }

  lemma {:induction false} EveryInterleaving(actions: seq<Action>)
    ensures Inv(After(actions))
  {
    if actions != [] {
      EveryInterleaving(actions[..|actions| - 1]);
      StepKeepsInv(After(actions[..|actions| - 1]), actions[|actions| - 1]);
    }
  }

  // ----- what callers are promised -----

  /** At most once: in every interleaving, also after errors and written-back copies, each key has at
      most one transfer and at most one row of the payer, and never a row without a transfer. */
  lemma AtMostOnePayment(actions: seq<Action>, key: Key)
    ensures PayerRows(After(actions).entries, key) <= Moves(After(actions).moves, key) <= 1
  {
    EveryInterleaving(actions);
    assert KeyOk(After(actions), key);
  }

  /** Whatever copies of the slot were written back, money moves and is booked only as the request
      that drew the key said: same payer, amount, payee and kind. */
  lemma PaymentsMatchTheirRequest(actions: seq<Action>)
    ensures var w := After(actions);
            && (forall n | 0 <= n < |w.moves| ::
                  w.moves[n].key < |w.minted| && w.moves[n] == MoveOf(w.minted[w.moves[n].key]))
            && (forall n | 0 <= n < |w.entries| && w.entries[n].kind != Receive ::
                  w.entries[n].key < |w.minted| && w.entries[n] == EntryOf(w.minted[w.entries[n].key]))
  {
    EveryInterleaving(actions);
  }

  /** Every answer that says an order went through is the saved answer of its one payer, and the order
      was paid and booked. */
  lemma FinishedAnswersAgree(actions: seq<Action>, i: nat)
    requires i < |After(actions).tasks|
    requires After(actions).tasks[i].Done? && After(actions).tasks[i].answer.Finished?
    ensures var w := After(actions);
            var a := w.tasks[i].answer;
            && a.key in w.idem && w.idem[a.key] == Settled(a.result)
            && Moves(w.moves, a.key) == 1 && PayerRows(w.entries, a.key) == 1
            && a.key < |w.minted| && a.result.amount == w.minted[a.key].amount && a.result.payee == w.minted[a.key].payee
  {
    EveryInterleaving(actions);
    assert TaskOk(After(actions), After(actions).tasks[i]);
    assert KeyOk(After(actions), After(actions).tasks[i].answer.key);
  }

  /** The "race unlikely" branch is dead: a handler that lost the insert always finds the row, so it
      never goes on to move money. */
  lemma RaceBranchIsDead(actions: seq<Action>, i: nat)
    requires i < |After(actions).tasks| && After(actions).tasks[i].Looking?
    ensures After(actions).tasks[i].order.key in After(actions).idem
  {
    EveryInterleaving(actions);
    assert TaskOk(After(actions), After(actions).tasks[i]);
  }

  /** A saved answer is final. */
  lemma AnswersAreFinal(w: World, a: Action, key: Key)
    requires Inv(w) && key in w.idem && w.idem[key].Settled?
    ensures key in Step(w, a).idem && Step(w, a).idem[key] == w.idem[key]
  {
    if a.Run? && a.index < |w.tasks| && PayTask(w.tasks[a.index]) {
      assert TaskOk(w, w.tasks[a.index]);
    }
  }
}
