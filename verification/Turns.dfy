/** What the PIN turn of module Settlement is for: in every interleaving, whatever is paid was confirmed
    by a handler of the paying phone that found the PIN right, and a handler that found it wrong pays
    nothing. */
module Turns {
  import opened Tables
  import opened Settlement

  /** Step n finds the PIN right, in a confirmation that holds the order o. */
  ghost predicate FindsPinRight(actions: seq<Action>, n: nat, i: nat, o: Order) {
    && n < |actions| && actions[n] == Run(i, Goes)
    && i < |After(actions[..n]).tasks| && After(actions[..n]).tasks[i] == Checking(o)
  }

  /** Step n starts the confirmation of phone p as handler i. */
  ghost predicate Starts(actions: seq<Action>, n: nat, i: nat, p: Phone) {
    n < |actions| && actions[n] == Begin(Reading(p)) && |After(actions[..n]).tasks| == i
  }

  /** The handler is past its PIN and holds an order it may pay. */
  predicate PastPin(t: Task) {
    t.Claiming? || t.Looking? || PayTask(t)
  }

  lemma Prefixes(actions: seq<Action>, n: nat)
    requires actions != [] && n <= |actions| - 1
    ensures actions[..|actions| - 1][..n] == actions[..n]
  {
  }

  /** What was true of an earlier step is true of it in the longer sequence. */
  lemma LongerRight(actions: seq<Action>, n: nat, i: nat, o: Order)
    requires actions != [] && FindsPinRight(actions[..|actions| - 1], n, i, o)
    ensures FindsPinRight(actions, n, i, o)
  {
    Prefixes(actions, n);
  }

  lemma LongerStart(actions: seq<Action>, n: nat, i: nat, p: Phone)
    requires actions != [] && Starts(actions[..|actions| - 1], n, i, p)
    ensures Starts(actions, n, i, p)
  {
    Prefixes(actions, n);
  }

  // ----- one step -----

  /** A handler's step is its own: the others stand still. */
  lemma OthersStand(w: World, i: nat, turn: Turn)
    requires i < |w.tasks|
    ensures |RunStep(w, i, turn).tasks| == |w.tasks|
    ensures forall j | 0 <= j < |w.tasks| && j != i :: RunStep(w, i, turn).tasks[j] == w.tasks[j]
  {
  }

  /** What handler j did in a step: nothing, its own step, or it was started. */
  lemma HandlersGoOn(w: World, a: Action, j: nat)
    requires j < |Step(w, a).tasks|
    ensures |w.tasks| <= |Step(w, a).tasks|
    ensures || (j < |w.tasks| && Step(w, a).tasks[j] == w.tasks[j])
            || (j < |w.tasks| && a.Run? && a.index == j && Step(w, a) == RunStep(w, j, a.turn))
            || (j == |w.tasks| && a == Begin(Step(w, a).tasks[j]) && CanBegin(Step(w, a).tasks[j]))
  {
    hide RunStep;
    if a.Run? && a.index < |w.tasks| {
      OthersStand(w, a.index, a.turn);
    }
  }

  lemma HandlersStay(w: World, a: Action)
    ensures |w.tasks| <= |Step(w, a).tasks|
  {
    hide RunStep;
    if a.Run? && a.index < |w.tasks| {
      OthersStand(w, a.index, a.turn);
    }
  }

  lemma SlotTasksStayOutside(w: World, i: nat, turn: Turn)
    requires i < |w.tasks| && SlotTask(w.tasks[i]) && |RunStep(w, i, turn).tasks| == |w.tasks|
    ensures !PastPin(RunStep(w, i, turn).tasks[i])
  {
    hide ClaimStep, PayStep;
  }

  lemma PayersKeepTheirOrder(w: World, i: nat, turn: Turn)
    requires i < |w.tasks| && !SlotTask(w.tasks[i]) && |RunStep(w, i, turn).tasks| == |w.tasks|
    requires PastPin(RunStep(w, i, turn).tasks[i])
    ensures var o := RunStep(w, i, turn).tasks[i].order;
            (PastPin(w.tasks[i]) && w.tasks[i].order == o) || (w.tasks[i] == Checking(o) && turn == Goes)
  {
    hide SlotStep;
  }

  /** A handler's own step leads past the PIN only from there, or by finding the PIN right. */
  lemma OwnStepPastThePin(w: World, i: nat, turn: Turn)
    requires i < |w.tasks| && |RunStep(w, i, turn).tasks| == |w.tasks| && PastPin(RunStep(w, i, turn).tasks[i])
    ensures var o := RunStep(w, i, turn).tasks[i].order;
            (PastPin(w.tasks[i]) && w.tasks[i].order == o) || (w.tasks[i] == Checking(o) && turn == Goes)
  {
    hide RunStep;
    if SlotTask(w.tasks[i]) {
      SlotTasksStayOutside(w, i, turn);
    } else {
      PayersKeepTheirOrder(w, i, turn);
    }
  }

  /** A handler past its PIN was so before with the same order, or has just found the PIN right. */
  lemma GettingPastThePin(w: World, a: Action, i: nat)
    requires i < |Step(w, a).tasks| && PastPin(Step(w, a).tasks[i])
    ensures i < |w.tasks|
    ensures var o := Step(w, a).tasks[i].order;
            || (PastPin(w.tasks[i]) && w.tasks[i].order == o)
            || (w.tasks[i] == Checking(o) && a == Run(i, Goes))
  {
    hide RunStep, Step;
    HandlersGoOn(w, a, i);
    if i < |w.tasks| && Step(w, a).tasks[i] != w.tasks[i] {
      OthersStand(w, i, a.turn);
      OwnStepPastThePin(w, i, a.turn);
    }
  }

  /** What a handler's step adds to the money and the rows. */
  lemma OnlyPayersRun(w: World, i: nat, turn: Turn)
    requires i < |w.tasks|
    ensures var v := RunStep(w, i, turn);
            || (v.moves == w.moves && v.entries == w.entries)
            || (PayTask(w.tasks[i])
                && var o := w.tasks[i].order;
                   || (v.moves == w.moves + [MoveOf(o)] && v.entries == w.entries)
                   || (v.moves == w.moves && v.entries == w.entries + [EntryOf(o)])
                   || (v.moves == w.moves && v.entries == w.entries + [PayeeRow(o)]))
  {
  }

  /** The mirror row of the payee. */
  function PayeeRow(o: Order): Entry {
    Entry(o.key, o.payeePhone.Or(o.phone), Receive, o.amount, o.phone)
  }

  /** Money moves and rows appear only by a handler past its PIN, for the order it holds. */
  lemma OnlyPayersPay(w: World, a: Action)
    ensures var v := Step(w, a);
            || (v.moves == w.moves && v.entries == w.entries)
            || (a.Run? && a.index < |w.tasks| && PayTask(w.tasks[a.index])
                && var o := w.tasks[a.index].order;
                   || (v.moves == w.moves + [MoveOf(o)] && v.entries == w.entries)
                   || (v.moves == w.moves && v.entries == w.entries + [EntryOf(o)])
                   || (v.moves == w.moves && v.entries == w.entries + [PayeeRow(o)]))
  {
    hide RunStep;
    if a.Run? && a.index < |w.tasks| {
      OnlyPayersRun(w, a.index, a.turn);
    }
  }

  lemma SlotTasksRead(w: World, i: nat, turn: Turn)
    requires i < |w.tasks| && SlotTask(w.tasks[i]) && |RunStep(w, i, turn).tasks| == |w.tasks|
    requires RunStep(w, i, turn).tasks[i].Checking? || PastPin(RunStep(w, i, turn).tasks[i])
    ensures var o := RunStep(w, i, turn).tasks[i].order;
            w.tasks[i].Reading? && w.tasks[i].phone in w.slot && w.slot[w.tasks[i].phone] == o
  {
    hide ClaimStep, PayStep;
  }

  lemma OrdersAreKept(w: World, i: nat, turn: Turn)
    requires i < |w.tasks| && !SlotTask(w.tasks[i]) && |RunStep(w, i, turn).tasks| == |w.tasks|
    requires RunStep(w, i, turn).tasks[i].Checking? || PastPin(RunStep(w, i, turn).tasks[i])
    ensures (w.tasks[i].Checking? || PastPin(w.tasks[i])) && w.tasks[i].order == RunStep(w, i, turn).tasks[i].order
  {
    hide SlotStep;
  }

  lemma OwnStepWithAnOrder(w: World, i: nat, turn: Turn)
    requires i < |w.tasks| && |RunStep(w, i, turn).tasks| == |w.tasks|
    requires RunStep(w, i, turn).tasks[i].Checking? || PastPin(RunStep(w, i, turn).tasks[i])
    ensures var o := RunStep(w, i, turn).tasks[i].order;
            || ((w.tasks[i].Checking? || PastPin(w.tasks[i])) && w.tasks[i].order == o)
            || (w.tasks[i].Reading? && w.tasks[i].phone in w.slot && w.slot[w.tasks[i].phone] == o)
  {
    hide RunStep;
    if SlotTask(w.tasks[i]) {
      SlotTasksRead(w, i, turn);
    } else {
      OrdersAreKept(w, i, turn);
    }
  }

  /** A handler that holds an order held it before, or has just read it in the slot of its phone. */
  lemma HoldingAnOrder(w: World, a: Action, i: nat)
    requires i < |Step(w, a).tasks| && (Step(w, a).tasks[i].Checking? || PastPin(Step(w, a).tasks[i]))
    ensures i < |w.tasks|
    ensures var o := Step(w, a).tasks[i].order;
            || ((w.tasks[i].Checking? || PastPin(w.tasks[i])) && w.tasks[i].order == o)
            || (w.tasks[i].Reading? && w.tasks[i].phone in w.slot && w.slot[w.tasks[i].phone] == o)
  {
    hide RunStep, Step;
    HandlersGoOn(w, a, i);
    if i < |w.tasks| && Step(w, a).tasks[i] != w.tasks[i] {
      OthersStand(w, i, a.turn);
      OwnStepWithAnOrder(w, i, a.turn);
    }
  }

  lemma NobodyGoesBackToReading(w: World, i: nat, turn: Turn)
    requires i < |w.tasks| && |RunStep(w, i, turn).tasks| == |w.tasks|
    ensures !RunStep(w, i, turn).tasks[i].Reading?
  {
  }

  lemma StillReading(w: World, a: Action, i: nat)
    requires i < |Step(w, a).tasks| && Step(w, a).tasks[i].Reading?
    ensures if i < |w.tasks| then w.tasks[i] == Step(w, a).tasks[i] else a == Begin(Step(w, a).tasks[i]) && i == |w.tasks|
  {
    hide RunStep, Step;
    HandlersGoOn(w, a, i);
    if i < |w.tasks| && a.Run? && a.index == i && Step(w, a) == RunStep(w, i, a.turn) {
      OthersStand(w, i, a.turn);
      NobodyGoesBackToReading(w, i, a.turn);
    }
  }

  /** Each slot holds an order of its own phone. */
  predicate OwnSlots(w: World) {
    forall p | p in w.slot :: w.slot[p].phone == p
  }

  lemma {:induction false} SlotsAreOwn(actions: seq<Action>)
    ensures OwnSlots(After(actions))
  {
    hide RunStep;
    if actions != [] {
      SlotsAreOwn(actions[..|actions| - 1]);
      StepKeepsSlotsOwn(After(actions[..|actions| - 1]), actions[|actions| - 1]);
    }
  }

  lemma StepKeepsSlotsOwn(w: World, a: Action)
    requires OwnSlots(w)
    ensures OwnSlots(Step(w, a))
  {
  }

  // ----- every sequence of steps -----

  /** Every handler past its PIN has found it right before. */
  lemma {:induction false} PayersFoundThePinRight(actions: seq<Action>, i: nat) returns (n: nat)
    requires i < |After(actions).tasks| && PastPin(After(actions).tasks[i])
    ensures FindsPinRight(actions, n, i, After(actions).tasks[i].order)
  {
    hide Step, FindsPinRight;
    if actions == [] {
      assert false;
    } else {
      var init, a := actions[..|actions| - 1], actions[|actions| - 1];
      var w, o := After(init), After(actions).tasks[i].order;
      GettingPastThePin(w, a, i);
      if PastPin(w.tasks[i]) && w.tasks[i].order == o {
        n := PayersFoundThePinRight(init, i);
        LongerRight(actions, n, i, o);
      } else {
        n := |actions| - 1;
        assert FindsPinRight(actions, n, i, o) by { RightAtLast(actions, i, o); }
      }
    }
  }

  lemma RightAtLast(actions: seq<Action>, i: nat, o: Order)
    requires actions != [] && actions[|actions| - 1] == Run(i, Goes)
    requires i < |After(actions[..|actions| - 1]).tasks| && After(actions[..|actions| - 1]).tasks[i] == Checking(o)
    ensures FindsPinRight(actions, |actions| - 1, i, o)
  {
  }

  lemma StartsAtLast(actions: seq<Action>, i: nat, p: Phone)
    requires actions != [] && actions[|actions| - 1] == Begin(Reading(p)) && |After(actions[..|actions| - 1]).tasks| == i
    ensures Starts(actions, |actions| - 1, i, p)
  {
  }

  lemma {:induction false} ReadersWereStarted(actions: seq<Action>, i: nat) returns (n: nat)
    requires i < |After(actions).tasks| && After(actions).tasks[i].Reading?
    ensures Starts(actions, n, i, After(actions).tasks[i].phone)
  {
    hide Step, Starts;
    if actions == [] {
      assert false;
    } else {
      var init, a := actions[..|actions| - 1], actions[|actions| - 1];
      StillReading(After(init), a, i);
      if i < |After(init).tasks| {
        n := ReadersWereStarted(init, i);
        LongerStart(actions, n, i, After(actions).tasks[i].phone);
      } else {
        n := |actions| - 1;
        StartsAtLast(actions, i, After(actions).tasks[i].phone);
      }
    }
  }

  /** Whoever checks or pays an order was started as a confirmation of the phone that pays. */
  lemma {:induction false} OrdersAreConfirmedByTheirPhone(actions: seq<Action>, i: nat) returns (n: nat)
    requires i < |After(actions).tasks| && (After(actions).tasks[i].Checking? || PastPin(After(actions).tasks[i]))
    ensures Starts(actions, n, i, After(actions).tasks[i].order.phone)
  {
    hide Step, Starts;
    if actions == [] {
      assert false;
    } else {
      var init, a := actions[..|actions| - 1], actions[|actions| - 1];
      var w, o := After(init), After(actions).tasks[i].order;
      HoldingAnOrder(w, a, i);
      if (w.tasks[i].Checking? || PastPin(w.tasks[i])) && w.tasks[i].order == o {
        n := OrdersAreConfirmedByTheirPhone(init, i);
      } else {
        SlotsAreOwn(init);
        n := ReadersWereStarted(init, i);
      }
      LongerStart(actions, n, i, o.phone);
    }
  }

  /** A step that moves money or adds a row: which handler takes it, when that was started, by whom, and
      when it found the PIN right, for just this order. */
  ghost predicate ConfirmedBefore(actions: seq<Action>, k: nat, i: nat, b: nat, n: nat, o: Order) {
    && k < |actions| && actions[k].Run? && actions[k].index == i && b < n < k
    && Starts(actions, b, i, o.phone) && FindsPinRight(actions, n, i, o)
  }

  lemma {:induction false} StartComesFirst(actions: seq<Action>, b: nat, n: nat, i: nat)
    requires b < |actions| && n < |actions| && |After(actions[..b]).tasks| == i && i < |After(actions[..n]).tasks|
    ensures b < n
  {
    if n <= b {
      HandlersGrow(actions, n, b);
      assert false;
    }
  }

  lemma {:induction false} HandlersGrow(actions: seq<Action>, m: nat, n: nat)
    requires m <= n <= |actions|
    ensures |After(actions[..m]).tasks| <= |After(actions[..n]).tasks|
    decreases n
  {
    hide Step;
    if m < n {
      HandlersGrow(actions, m, n - 1);
      assert actions[..n][..n - 1] == actions[..n - 1];
      HandlersStay(After(actions[..n - 1]), actions[n - 1]);
    }
  }

  lemma PayersWereConfirmed(actions: seq<Action>, i: nat) returns (b: nat, n: nat)
    requires i < |After(actions).tasks| && PastPin(After(actions).tasks[i])
    ensures b < n < |actions| && Starts(actions, b, i, After(actions).tasks[i].order.phone)
    ensures FindsPinRight(actions, n, i, After(actions).tasks[i].order)
  {
    hide After;
    b := OrdersAreConfirmedByTheirPhone(actions, i);
    n := PayersFoundThePinRight(actions, i);
    StartComesFirst(actions, b, n, i);
  }

  /** What one more step adds was confirmed before. */
  lemma NewPaymentsWereConfirmed(actions: seq<Action>) returns (i: nat, b: nat, n: nat, o: Order)
    requires actions != []
    requires var w, v := After(actions[..|actions| - 1]), After(actions); v.moves != w.moves || v.entries != w.entries
    ensures ConfirmedBefore(actions, |actions| - 1, i, b, n, o)
    ensures var w, v := After(actions[..|actions| - 1]), After(actions);
            || (v.moves == w.moves + [MoveOf(o)] && v.entries == w.entries)
            || (v.moves == w.moves && v.entries == w.entries + [EntryOf(o)])
            || (v.moves == w.moves && v.entries == w.entries + [PayeeRow(o)])
  {
    hide Step, Starts, FindsPinRight;
    var init, a := actions[..|actions| - 1], actions[|actions| - 1];
    OnlyPayersPay(After(init), a);
    i := a.index;
    o := After(init).tasks[i].order;
    b, n := PayersWereConfirmed(init, i);
    LongerStart(actions, b, i, o.phone);
    LongerRight(actions, n, i, o);
  }

  lemma LongerConfirmed(actions: seq<Action>, k: nat, i: nat, b: nat, n: nat, o: Order)
    requires actions != [] && ConfirmedBefore(actions[..|actions| - 1], k, i, b, n, o)
    ensures ConfirmedBefore(actions, k, i, b, n, o)
  {
    LongerStart(actions, b, i, o.phone);
    LongerRight(actions, n, i, o);
  }

  /** Every transfer: the step k that made it is a step of a handler that was started as a confirmation of
      the phone that pays, and that found the PIN right before, holding just the order that was paid. */
  lemma {:induction false} TransfersHadARightPin(actions: seq<Action>, m: nat) returns (k: nat, i: nat, b: nat, n: nat, o: Order)
    requires m < |After(actions).moves|
    ensures ConfirmedBefore(actions, k, i, b, n, o) && After(actions).moves[m] == MoveOf(o)
    ensures |After(actions[..k]).moves| == m
  {
    hide Step, ConfirmedBefore;
    if actions == [] {
      assert false;
    } else {
      var init := actions[..|actions| - 1];
      if m < |After(init).moves| {
        MovesStay(After(init), actions[|actions| - 1]);
        k, i, b, n, o := TransfersHadARightPin(init, m);
        LongerConfirmed(actions, k, i, b, n, o);
        assert k < |init| by { ConfirmedWithin(init, k, i, b, n, o); }
        Prefixes(actions, k);
      } else {
        i, b, n, o := NewPaymentsWereConfirmed(actions);
        k := |actions| - 1;
      }
    }
  }

  lemma ConfirmedWithin(actions: seq<Action>, k: nat, i: nat, b: nat, n: nat, o: Order)
    requires ConfirmedBefore(actions, k, i, b, n, o)
    ensures k < |actions|
  {
  }

  lemma MovesStay(w: World, a: Action)
    ensures w.moves <= Step(w, a).moves && w.entries <= Step(w, a).entries
  {
    hide Step;
    OnlyPayersPay(w, a);
  }

  /** Every row, of the payer or of the payee, likewise. */
  lemma {:induction false} RowsHadARightPin(actions: seq<Action>, m: nat) returns (k: nat, i: nat, b: nat, n: nat, o: Order)
    requires m < |After(actions).entries|
    ensures ConfirmedBefore(actions, k, i, b, n, o) && |After(actions[..k]).entries| == m
    ensures var e := After(actions).entries[m];
            e == EntryOf(o) || e == PayeeRow(o)
  {
    hide Step, ConfirmedBefore;
    if actions == [] {
      assert false;
    } else {
      var init := actions[..|actions| - 1];
      if m < |After(init).entries| {
        MovesStay(After(init), actions[|actions| - 1]);
        k, i, b, n, o := RowsHadARightPin(init, m);
        LongerConfirmed(actions, k, i, b, n, o);
        assert k < |init| by { ConfirmedWithin(init, k, i, b, n, o); }
        Prefixes(actions, k);
      } else {
        i, b, n, o := NewPaymentsWereConfirmed(actions);
        k := |actions| - 1;
      }
    }
  }

  // ----- wrong turns -----

  /** The handler was refused: it has ended without an answer to give, or only empties the slot of p. */
  predicate Refused(t: Task, p: Phone) {
    t == Emptying(p) || (t.Done? && !t.answer.Finished?)
  }

  /** A wrong PIN changes nothing but the handler that found it: it ends, or goes on to empty the slot. */
  lemma WrongPinsTouchNothing(w: World, i: nat, turn: Turn)
    requires i < |w.tasks| && w.tasks[i].Checking? && !turn.Goes?
    ensures var v := Step(w, Run(i, turn));
            && v == w.(tasks := v.tasks) && v.tasks == w.tasks[i := v.tasks[i]]
            && Refused(v.tasks[i], w.tasks[i].order.phone)
            && (turn.LocksOut? <==> v.tasks[i].Emptying?)
  {
  }

  lemma RefusedRuns(w: World, i: nat, turn: Turn, p: Phone)
    requires i < |w.tasks| && Refused(w.tasks[i], p) && |RunStep(w, i, turn).tasks| == |w.tasks|
    ensures var v := RunStep(w, i, turn);
            Refused(v.tasks[i], p) && v == w.(slot := v.slot, tasks := v.tasks)
    ensures turn == Goes && w.tasks[i] == Emptying(p) ==> p !in RunStep(w, i, turn).slot
  {
    hide ClaimStep, PayStep;
  }

  lemma RefusedStays(w: World, a: Action, i: nat, p: Phone)
    requires i < |w.tasks| && Refused(w.tasks[i], p)
    ensures i < |Step(w, a).tasks| && Refused(Step(w, a).tasks[i], p)
    ensures a.Run? && a.index == i ==> Step(w, a) == w.(slot := Step(w, a).slot, tasks := Step(w, a).tasks)
    ensures a == Run(i, Goes) && w.tasks[i] == Emptying(p) ==> p !in Step(w, a).slot
  {
    hide RunStep;
    HandlersStay(w, a);
    HandlersGoOn(w, a, i);
    if a.Run? && a.index == i {
      OthersStand(w, i, a.turn);
      RefusedRuns(w, i, a.turn, p);
    }
  }

  /** A handler that found its PIN wrong never pays, whatever happens later: none of its further steps
      moves money, adds a row, or touches an idempotency key. */
  lemma {:induction false} RefusedHandlersNeverPay(actions: seq<Action>, n: nat, i: nat, turn: Turn, k: nat)
    requires n < k <= |actions| && actions[n] == Run(i, turn) && !turn.Goes?
    requires i < |After(actions[..n]).tasks| && After(actions[..n]).tasks[i].Checking?
    ensures i < |After(actions[..k]).tasks| && Refused(After(actions[..k]).tasks[i], After(actions[..n]).tasks[i].order.phone)
    ensures k < |actions| && actions[k].Run? && actions[k].index == i ==>
              var w, v := After(actions[..k]), After(actions[..k + 1]);
              v.moves == w.moves && v.entries == w.entries && v.idem == w.idem
    decreases k
  {
    hide Step;
    var p := After(actions[..n]).tasks[i].order.phone;
    assert actions[..k][..k - 1] == actions[..k - 1];
    if k == n + 1 {
      WrongPinsTouchNothing(After(actions[..n]), i, turn);
    } else {
      RefusedHandlersNeverPay(actions, n, i, turn, k - 1);
      RefusedStays(After(actions[..k - 1]), actions[k - 1], i, p);
    }
    if k < |actions| {
      assert actions[..k + 1][..k] == actions[..k];
      RefusedStays(After(actions[..k]), actions[k], i, p);
    }
  }

  // ----- cancelling -----

  /** A cancel that runs alone leaves no order in the slot of its phone, and everything else as it was. */
  lemma CancelEmptiesTheSlot(actions: seq<Action>, p: Phone)
    ensures var w := After(actions);
            var v := After(actions + [Begin(Emptying(p)), Run(|w.tasks|, Goes)]);
            && p !in v.slot && (forall q | q != p :: (q in v.slot <==> q in w.slot) && (q in w.slot ==> v.slot[q] == w.slot[q]))
            && v == w.(slot := v.slot, tasks := w.tasks + [Done(Nothing)])
  {
    var w, i := After(actions), |After(actions).tasks|;
    var more := actions + [Begin(Emptying(p))];
    assert more[..|more| - 1] == actions;
    var all := actions + [Begin(Emptying(p)), Run(i, Goes)];
    assert all[..|all| - 1] == more;
    assert (w.tasks + [Emptying(p)])[i := Done(Nothing)] == w.tasks + [Done(Nothing)];
  }

  /** So does a handler that locks the account out, once it takes its next step. */
  lemma LockoutEmptiesTheSlot(w: World, i: nat)
    requires i < |w.tasks| && w.tasks[i].Checking?
    ensures var p, v := w.tasks[i].order.phone, Step(Step(w, Run(i, LocksOut)), Run(i, Goes));
            p !in v.slot && v == w.(slot := v.slot, tasks := w.tasks[i := Done(Nothing)])
  {
  }

  lemma OneMoreAction(actions: seq<Action>, a: Action)
    ensures After(actions + [a]) == Step(After(actions), a)
  {
    assert (actions + [a])[..|actions + [a]| - 1] == actions;
  }

  lemma RequestRuns(w: World, o: Order)
    ensures var i := |w.tasks|;
            var v := Step(Step(Step(w, Begin(Asking(o))), Run(i, Goes)), Run(i, Goes));
            var m := o.(key := |w.minted|);
            v == w.(slot := w.slot[o.phone := m], minted := w.minted + [m], tasks := w.tasks + [Done(Nothing)])
  {
    var i, m := |w.tasks|, o.(key := |w.minted|);
    var one := Step(w, Begin(Asking(o)));
    assert one == w.(tasks := w.tasks + [Asking(o)]);
    var two := Step(one, Run(i, Goes));
    assert two == one.(minted := w.minted + [m], tasks := one.tasks[i := Storing(m)]);
    assert two.tasks[i := Done(Nothing)] == w.tasks + [Done(Nothing)];
  }

  /** A request that runs alone leaves its order in the slot, under a key never drawn before. */
  lemma RequestsFillTheSlot(actions: seq<Action>, o: Order)
    ensures var w := After(actions);
            var v := After(actions + [Begin(Asking(o)), Run(|w.tasks|, Goes), Run(|w.tasks|, Goes)]);
            && o.phone in v.slot && v.slot[o.phone] == o.(key := |w.minted|)
            && v.minted == w.minted + [v.slot[o.phone]] && v.slot == w.slot[o.phone := v.slot[o.phone]]
            && v.moves == w.moves && v.entries == w.entries && v.idem == w.idem
  {
    hide After, Step;
    var w, i := After(actions), |After(actions).tasks|;
    var begin, run := Begin(Asking(o)), Run(i, Goes);
    OneMoreAction(actions, begin);
    OneMoreAction(actions + [begin], run);
    OneMoreAction(actions + [begin, run], run);
    assert actions + [begin] + [run] == actions + [begin, run];
    assert actions + [begin, run] + [run] == actions + [begin, run, run];
    RequestRuns(w, o);
  }
}
