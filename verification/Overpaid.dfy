/** How much leaves the escrow for one claim.  A payout whose transfer throws although it moved the money
    leaves its claim held, so a later job pays the claim again (orchestrator/src/lib/claims.ts:125-150):
    exactly when a claim is paid more than it holds. */
module Overpaid {
  import opened Tables
  import opened Settings
  import opened Claims
  import opened Escrow
  import opened Runs
  import opened Steps
  import opened Safety
  import opened ClaimRuns

  /** What an attempt moves for its claim; with `leaks`, only if the transfer threw all the same. */
  function Moved(c: Config, s: State, id: nat, o: Outcome, leaks: bool): nat
    requires id < |s.claims|
  {
    if leaks && !o.LandedButThrew? then 0 else PaidOut(c, s, id, o)
  }

  /** What the first n attempts of a job move for claim id. */
  function JobOut(c: Config, s: State, now: nat, ids: seq<nat>, job: Job, outcomes: seq<Outcome>, n: nat, id: nat, leaks: bool): nat
    requires n <= |ids| && forall k | k in ids :: k < |s.claims|
  {
    if n == 0 then 0
    else
      assert ids[n - 1] in ids;
      JobOut(c, s, now, ids, job, outcomes, n - 1, id, leaks)
      + if ids[n - 1] == id then Moved(c, PayMany(c, s, now, ids, job, outcomes, n - 1).0, id, OutcomeAt(outcomes, n - 1), leaks) else 0
  }

  /** What an operation moves for claim id. */
  function OpOut(c: Config, s: State, op: Op, id: nat, leaks: bool): nat {
    var ids := Listing(s, op);
    JobOut(c, WithEscrow(c, s), op.now, ids, JobOf(op), OutcomesOf(op), |ids|, id, leaks)
  }

  /** What the first k operations moved for claim id. */
  function OutOf(c: Config, ops: seq<Op>, t: seq<State>, k: nat, id: nat, leaks: bool): nat
    requires k <= |ops| && |t| == |ops| + 1
  {
    if k == 0 then 0 else OutOf(c, ops, t, k - 1, id, leaks) + OpOut(c, t[k - 1], ops[k - 1], id, leaks)
  }

  /** A job tries each of its claims once. */
  lemma {:induction false} OneTurnEach(c: Config, s: State, now: nat, ids: seq<nat>, job: Job, outcomes: seq<Outcome>, n: nat, id: nat, leaks: bool)
    requires Listed(s.claims, ids) && n <= |ids|
    ensures (forall i | 0 <= i < n :: ids[i] != id) ==> JobOut(c, s, now, ids, job, outcomes, n, id, leaks) == 0
    ensures forall i | 0 <= i < n && ids[i] == id ::
              ids[i] in ids
              && JobOut(c, s, now, ids, job, outcomes, n, id, leaks) == Moved(c, PayMany(c, s, now, ids, job, outcomes, i).0, id, OutcomeAt(outcomes, i), leaks)
  {
    hide PayOne, Moved;
    if n > 0 {
      OneTurnEach(c, s, now, ids, job, outcomes, n - 1, id, leaks);
      forall i | 0 <= i < n && ids[i] == id ensures ids[i] in ids {
      }
      if ids[n - 1] == id {
        forall i | 0 <= i < n - 1 ensures ids[i] != id {
          assert ids[i] < ids[n - 1];
        }
      }
    }
  }

  /** The turn of a held claim: it moves at most the amount, and if the claim stays held then whatever it
      moved was a leak. */
  lemma TurnMoves(c: Config, s: State, now: nat, ids: seq<nat>, job: Job, outcomes: seq<Outcome>, i: nat)
    requires Listed(s.claims, ids) && i < |ids| && ids[i] < |s.claims|
    requires c.escrow in s.users && Grounded(c, s) && PayeeIsPerson(c, job)
    ensures ids[i] in ids
    ensures var u, o := PayMany(c, s, now, ids, job, outcomes, i).0, OutcomeAt(outcomes, i);
            && Moved(c, u, ids[i], o, false) <= s.claims[ids[i]].amount
            && (PayMany(c, s, now, ids, job, outcomes, |ids|).0.claims[ids[i]].status == Held
                ==> Moved(c, u, ids[i], o, false) == Moved(c, u, ids[i], o, true))
  {
    hide PayOne, PayGain, PayFlow, Slack;
    JobReaches(c, s, now, ids, job, outcomes, i);
    TurnDecides(c, s, now, ids, job, outcomes, i, |ids|);
    PayOneIsExact(c, PayMany(c, s, now, ids, job, outcomes, i).0, now, ids[i], job, OutcomeAt(outcomes, i));
  }

  /** Nothing is moved for a claim that is not there or no longer held. */
  lemma OnlyHeldClaimsArePaid(c: Config, s: State, op: Op, id: nat, leaks: bool)
    requires id < |s.claims| ==> s.claims[id].status != Held
    ensures OpOut(c, s, op, id, leaks) == 0
  {
    var ids := Listing(s, op);
    forall i | 0 <= i < |ids| ensures ids[i] != id {
      assert ids[i] in ids;
    }
    OneTurnEach(c, WithEscrow(c, s), op.now, ids, JobOf(op), OutcomesOf(op), |ids|, id, leaks);
  }

  /** An operation keeps a claim's amount and never brings it back. */
  lemma ClaimsOnlySettle(c: Config, s: State, op: Op, id: nat)
    requires Grounded(c, s) && ByPeople(c, op) && id < |s.claims|
    ensures var t := Operate(c, s, op);
            && id < |t.claims| && t.claims[id].amount == s.claims[id].amount && (s.claims[id].status != Held ==> t.claims[id] == s.claims[id])
  {
    hide Operate, PayMany, Hold, HeldSum, Slack;
    if op.Open? {
      OpeningIsAHold(c, s, op);
      HoldAddsOneClaim(c, s, op.now, op.from, op.to, op.amount, op.o);
    } else {
      var e, ids := WithEscrow(c, s), Listing(s, op);
      EscrowUserChangesNothing(c, s);
      OperationIsItsJob(c, s, op);
      JobKeepsClaims(c, e, op.now, ids, JobOf(op), op.outcomes, |ids|);
      var t := PayMany(c, e, op.now, ids, JobOf(op), op.outcomes, |ids|).0;
      assert SettledBy(JobOf(op), s.claims[id], t.claims[id]);
    }
  }

  /** One operation on a held claim. */
  lemma OperationPays(c: Config, s: State, op: Op, id: nat)
    requires Grounded(c, s) && ByPeople(c, op) && id < |s.claims| && s.claims[id].status == Held
    ensures OpOut(c, s, op, id, false) <= s.claims[id].amount
    ensures id < |Operate(c, s, op).claims|
    ensures Operate(c, s, op).claims[id].status == Held ==> OpOut(c, s, op, id, false) == OpOut(c, s, op, id, true)
  {
    hide Operate, PayMany, HeldSum, Slack, Moved, WithEscrow;
    var e, ids := WithEscrow(c, s), Listing(s, op);
    EscrowUserChangesNothing(c, s);
    ClaimsOnlySettle(c, s, op, id);
    OneTurnEach(c, e, op.now, ids, JobOf(op), OutcomesOf(op), |ids|, id, false);
    OneTurnEach(c, e, op.now, ids, JobOf(op), OutcomesOf(op), |ids|, id, true);
    if id in ids {
      var i :| 0 <= i < |ids| && ids[i] == id;
      OperationIsItsJob(c, s, op);
      TurnMoves(c, e, op.now, ids, JobOf(op), OutcomesOf(op), i);
    }
  }

  lemma LeaksAreOutflow(c: Config, s: State, op: Op, id: nat)
    ensures OpOut(c, s, op, id, true) <= OpOut(c, s, op, id, false)
  {
    var ids := Listing(s, op);
    OneTurnEach(c, WithEscrow(c, s), op.now, ids, JobOf(op), OutcomesOf(op), |ids|, id, true);
    OneTurnEach(c, WithEscrow(c, s), op.now, ids, JobOf(op), OutcomesOf(op), |ids|, id, false);
    if id in ids {
      var i :| 0 <= i < |ids| && ids[i] == id;
    }
  }

  lemma ClaimsOnlyGrow(c: Config, s: State, op: Op)
    requires Grounded(c, s) && ByPeople(c, op)
    ensures |Operate(c, s, op).claims| >= |s.claims|
  {
    if |s.claims| > 0 {
      ClaimsOnlySettle(c, s, op, |s.claims| - 1);
    }
  }

  /** All that one operation does for claim id. */
  lemma OneMoreOperation(c: Config, s: State, op: Op, id: nat)
    requires Grounded(c, s) && ByPeople(c, op)
    ensures var t, all, leaked := Operate(c, s, op), OpOut(c, s, op, id, false), OpOut(c, s, op, id, true);
            && |s.claims| <= |t.claims| && leaked <= all
            && (id < |t.claims| && t.claims[id].status == Held ==> all == leaked)
            && (id < |s.claims| ==> t.claims[id].amount == s.claims[id].amount && all <= s.claims[id].amount)
            && (id < |s.claims| && s.claims[id].status != Held ==> t.claims[id].status != Held)
            && ((id < |s.claims| ==> s.claims[id].status != Held) ==> all == 0)
  {
    hide Operate, OpOut, Grounded;
    LeaksAreOutflow(c, s, op, id);
    ClaimsOnlyGrow(c, s, op);
    if id < |s.claims| {
      ClaimsOnlySettle(c, s, op, id);
    }
    if id < |s.claims| && s.claims[id].status == Held {
      OperationPays(c, s, op, id);
    } else {
      OnlyHeldClaimsArePaid(c, s, op, id, false);
    }
  }

  /** Whatever has left the escrow for a claim leaked, but for at most its amount once it is settled. */
  lemma {:induction false} OutflowIsLeaksAndOnePayout(c: Config, ops: seq<Op>, t: seq<State>, k: nat, id: nat)
    requires EscrowRun(c, ops, t) && k <= |ops|
    ensures id >= |t[k].claims| || t[k].claims[id].status == Held ==> OutOf(c, ops, t, k, id, false) == OutOf(c, ops, t, k, id, true)
    ensures id < |t[k].claims| ==> OutOf(c, ops, t, k, id, false) <= OutOf(c, ops, t, k, id, true) + t[k].claims[id].amount
    ensures OutOf(c, ops, t, k, id, true) <= OutOf(c, ops, t, k, id, false)
  {
    hide Operate, OpOut, Grounded, Slack, ByPeople;
    if k > 0 {
      OutflowIsLeaksAndOnePayout(c, ops, t, k - 1, id);
      assert Operates(c, ops, t, k - 1);
      EscrowConserves(c, ops, t, k - 1);
      OneMoreOperation(c, t[k - 1], ops[k - 1], id);
    }
  }

  /** A claim none of whose payouts leaked never takes more than its amount out of the escrow. */
  lemma ClaimsWithoutLeaksStayWithin(c: Config, ops: seq<Op>, t: seq<State>, k: nat, id: nat)
    requires EscrowRun(c, ops, t) && k <= |ops| && id < |t[k].claims| && OutOf(c, ops, t, k, id, true) == 0
    ensures OutOf(c, ops, t, k, id, false) <= t[k].claims[id].amount
  {
    OutflowIsLeaksAndOnePayout(c, ops, t, k, id);
  }

  /** The payout of a held claim for which only leaks, and no more than its amount, have left so far. */
  lemma NextPayout(c: Config, s: State, op: Op, id: nat, n: nat, leaked: nat)
    requires Grounded(c, s) && ByPeople(c, op) && id < |s.claims| && s.claims[id].status == Held && leaked <= s.claims[id].amount
    requires n < |Listing(s, op)| && Listing(s, op)[n] == id
    ensures var u := PayMany(c, WithEscrow(c, s), op.now, Listing(s, op), JobOf(op), OutcomesOf(op), n).0;
            var want := s.claims[id].amount;
            && id < |u.claims|
            && (leaked + OpOut(c, s, op, id, false) > want
                <==> MovesMoney(c, u, id, OutcomeAt(OutcomesOf(op), n)) && leaked > 0 && u.Bal(c.escrow) - c.reserve > want - leaked)
  {
    hide Operate, PayOne, Grounded, Slack, HeldSum, WithEscrow;
    var e, ids := WithEscrow(c, s), Listing(s, op);
    EscrowUserChangesNothing(c, s);
    OneTurnEach(c, e, op.now, ids, JobOf(op), OutcomesOf(op), |ids|, id, false);
    JobReaches(c, e, op.now, ids, JobOf(op), OutcomesOf(op), n);
  }

  /** Exactly when the next payout of a held claim takes its total past its amount: it moves money, an
      earlier payout leaked, and the balance beyond the reserve exceeds what the leak left of the amount. */
  lemma ClaimsAreOverpaidExactlyAfterALeak(c: Config, ops: seq<Op>, t: seq<State>, k: nat, id: nat, n: nat)
    requires EscrowRun(c, ops, t) && k < |ops| && id < |t[k].claims| && t[k].claims[id].status == Held
    requires n < |Listing(t[k], ops[k])| && Listing(t[k], ops[k])[n] == id
    requires OutOf(c, ops, t, k, id, false) <= t[k].claims[id].amount
    ensures var u := PayMany(c, WithEscrow(c, t[k]), ops[k].now, Listing(t[k], ops[k]), JobOf(ops[k]), OutcomesOf(ops[k]), n).0;
            var want, leaked := t[k].claims[id].amount, OutOf(c, ops, t, k, id, true);
            && id < |u.claims|
            && (OutOf(c, ops, t, k + 1, id, false) > want
                <==> MovesMoney(c, u, id, OutcomeAt(OutcomesOf(ops[k]), n)) && leaked > 0 && u.Bal(c.escrow) - c.reserve > want - leaked)
  {
    hide Operate, PayMany, Grounded, Slack, MovesMoney, OpOut;
    assert Operates(c, ops, t, k);
    EscrowConserves(c, ops, t, k);
    OutflowIsLeaksAndOnePayout(c, ops, t, k, id);
    NextPayout(c, t[k], ops[k], id, n, OutOf(c, ops, t, k, id, true));
  }

  // ----- over whole runs of the program -----

  /** What the step from s to t moves out of the escrow for claim id. */
  ghost function StepOut(c: Config, s: State, t: State, i: Input, id: nat, leaks: bool): nat
    requires |c.tiers| == 3
  {
    var x := PayoutOf(c, s, t, i);
    if x.Payout? then OpOut(c, x.from, x.op, id, leaks) else 0
  }

  /** What the first k steps moved for it. */
  ghost function RunOut(c: Config, run: seq<Input>, t: seq<State>, k: nat, id: nat, leaks: bool): nat
    requires |c.tiers| == 3 && |t| == |run| + 1 && k <= |run|
  {
    if k == 0 then 0 else RunOut(c, run, t, k - 1, id, leaks) + StepOut(c, t[k - 1], t[k], run[k - 1], id, leaks)
  }

  /** All that one step does for claim id. */
  lemma OneMoreStep(c: Config, s: State, i: Input, id: nat)
    requires c.Valid() && ClaimsOk(c, s) && FromPeople(c, i) && Rooted(c, s)
    requires forall p | c.Ordinary(p) :: Bound(s, i.at, p)
    ensures var t := Step(c, s, i);
            var all, leaked := StepOut(c, s, t, i, id, false), StepOut(c, s, t, i, id, true);
            && |s.claims| <= |t.claims| && leaked <= all
            && (id < |t.claims| && t.claims[id].status == Held ==> all == leaked)
            && (id < |s.claims| ==> t.claims[id].amount == s.claims[id].amount && all <= s.claims[id].amount)
            && (id < |s.claims| && s.claims[id].status != Held ==> t.claims[id].status != Held)
            && ((id < |s.claims| ==> s.claims[id].status != Held) ==> all == 0)
  {
    hide Step, OpOut, ClaimsOk, Operate, Slack;
    var t := Step(c, s, i);
    if PayoutOf(c, s, t, i).Payout? {
      var x := PayoutOf(c, s, t, i);
      ExpirySteps(c, s, i);
      PayoutsAreOperations(c, s, t, i);
      ClaimsOkIsGrounded(c, x.from);
      OneMoreOperation(c, x.from, x.op, id);
    } else {
      OtherStepsKeepClaims(c, s, i);
    }
  }

  /** In every run, whatever has left the escrow for a claim leaked, but for at most its amount once it is
      settled. */
  lemma {:induction false} RunOutflowIsLeaksAndOnePayout(c: Config, run: seq<Input>, t: seq<State>, k: nat, id: nat)
    requires Run(c, run, t) && k <= |run|
    ensures id >= |t[k].claims| || t[k].claims[id].status == Held ==> RunOut(c, run, t, k, id, false) == RunOut(c, run, t, k, id, true)
    ensures id < |t[k].claims| ==> RunOut(c, run, t, k, id, false) <= RunOut(c, run, t, k, id, true) + t[k].claims[id].amount
    ensures RunOut(c, run, t, k, id, true) <= RunOut(c, run, t, k, id, false)
  {
    hide Step, FromPeople, StepOut;
    if k > 0 {
      RunOutflowIsLeaksAndOnePayout(c, run, t, k - 1, id);
      RunsKeepClaimsOk(c, run, t, k - 1);
      StepOfRun(c, run, t, k - 1);
      OneMoreStep(c, t[k - 1], run[k - 1], id);
    }
  }

  /** In every run, exactly when the next payout of a held claim takes its total past its amount. */
  lemma RunClaimsAreOverpaidExactlyAfterALeak(c: Config, run: seq<Input>, t: seq<State>, k: nat, id: nat, n: nat)
    requires Run(c, run, t) && k < |run| && id < |t[k].claims| && t[k].claims[id].status == Held
    requires RunOut(c, run, t, k, id, false) <= t[k].claims[id].amount
    requires var x := PayoutOf(c, t[k], t[k + 1], run[k]);
             x.Payout? && n < |Listing(x.from, x.op)| && Listing(x.from, x.op)[n] == id
    ensures var x := PayoutOf(c, t[k], t[k + 1], run[k]);
            var u := PayMany(c, WithEscrow(c, x.from), x.op.now, Listing(x.from, x.op), JobOf(x.op), OutcomesOf(x.op), n).0;
            var want, leaked := t[k].claims[id].amount, RunOut(c, run, t, k, id, true);
            && id < |u.claims|
            && (RunOut(c, run, t, k + 1, id, false) > want
                <==> MovesMoney(c, u, id, OutcomeAt(OutcomesOf(x.op), n)) && leaked > 0 && u.Bal(c.escrow) - c.reserve > want - leaked)
  {
    hide Step, FromPeople, OpOut, ClaimsOk, Operate, PayMany, Slack, MovesMoney, PayoutOf;
    var x := PayoutOf(c, t[k], t[k + 1], run[k]);
    RunsKeepClaimsOk(c, run, t, k);
    StepOfRun(c, run, t, k);
    ExpirySteps(c, t[k], run[k]);
    PayoutsAreOperations(c, t[k], t[k + 1], run[k]);
    ClaimsOkIsGrounded(c, x.from);
    RunOutflowIsLeaksAndOnePayout(c, run, t, k, id);
    NextPayout(c, x.from, x.op, id, n, RunOut(c, run, t, k, id, true));
  }
}
