/** What interleaved runs of the job and the admins leave of the ledger, and exactly when its laws survive them. */
module SafeRuns {
  import opened Wrappers
  import opened Ledger
  import opened LedgerLaws
  import opened WalletHistory
  import Flags
  import opened Eligibility
  import opened Protocol
  import opened ProtocolLaws

  // ----- safe interleavings

  /** The runner has seen its purchase pending and has not committed yet. */
  predicate PastCheck(phase: Phase) {
    phase.Verifying? || phase.Settling? || phase.ForceRejecting?
  }

  ghost predicate CheckedIsPending(s: Sys) {
    forall t :: t in s.runners && PastCheck(s.runners[t].phase) ==> PendingIn(s.ledger.books, s.runners[t].purchase)
  }

  /** An admin operation does not fall between a runner's status check and its commit on the same purchase. */
  ghost predicate Undisturbed(s: Sys, step: Step) {
    step.Operation? && !step.op.Ingest? ==>
      forall t :: t in s.runners && s.runners[t].purchase == step.op.id ==> !PastCheck(s.runners[t].phase)
  }

  ghost predicate IsSafeRun(s: Sys, max: nat, steps: seq<Step>)
    decreases |steps|
  {
    steps == []
    || (Enabled(s, steps[0]) && Undisturbed(s, steps[0]) && IsSafeRun(Exec(s, max, steps[0]), max, steps[1..]))
  }

  lemma {:induction false} SafeRunIsRun(s: Sys, max: nat, steps: seq<Step>)
    requires IsSafeRun(s, max, steps)
    ensures IsRun(s, max, steps)
    decreases |steps|
  {
    if steps == [] {
    } else {
      SafeRunIsRun(Exec(s, max, steps[0]), max, steps[1..]);
    }
  }

  /** Runs of the job alone, with ingestions and flag writes at any point, are safe. */
  lemma {:induction false} JobOnlyRunIsSafe(s: Sys, max: nat, steps: seq<Step>)
    requires IsRun(s, max, steps)
    requires forall step :: step in steps && step.Operation? ==> step.op.Ingest?
    ensures IsSafeRun(s, max, steps)
    decreases |steps|
  {
    if steps == [] {
    } else {
      assert steps[0] in steps;
      JobOnlyRunIsSafe(Exec(s, max, steps[0]), max, steps[1..]);
    }
  }

  lemma OperationKeepsOthersPending(b: Books, op: Op, id: Uuid)
    requires if op.Ingest? then op.id !in b.purchases else op.id in b.purchases
    requires op.id != id && PendingIn(b, id)
    ensures PendingIn(Write(b, op), id)
  {
    WriteFramesPurchases(b, op, id);
  }

  lemma OperationKeepsChecked(s: Sys, max: nat, op: Op)
    requires CheckedIsPending(s) && Enabled(s, Operation(op)) && Undisturbed(s, Operation(op))
    ensures CheckedIsPending(Exec(s, max, Operation(op)))
  {
    if Guard(s.ledger.books, op).None? {
      forall t | t in s.runners && PastCheck(s.runners[t].phase)
        ensures PendingIn(Write(s.ledger.books, op), s.runners[t].purchase)
      {
        OperationKeepsOthersPending(s.ledger.books, op, s.runners[t].purchase);
      }
    }
  }

  /** A commit touches one purchase, and no other runner has checked that one. */
  lemma SettlementKeepsChecked(s: Sys, max: nat, t: nat)
    requires TrackerLaw(s) && CheckedIsPending(s) && Enabled(s, CommitSettlement(t))
    ensures CheckedIsPending(Exec(s, max, CommitSettlement(t)))
  {
    var op := Decision(s.runners[t]);
    forall u | u in s.runners && u != t && PastCheck(s.runners[u].phase)
      ensures PendingIn(Write(s.ledger.books, op), s.runners[u].purchase)
    {
      OperationKeepsOthersPending(s.ledger.books, op, s.runners[u].purchase);
    }
  }

  lemma StepKeepsChecked(s: Sys, max: nat, step: Step)
    requires TrackerLaw(s) && CheckedIsPending(s) && Enabled(s, step) && Undisturbed(s, step)
    ensures CheckedIsPending(Exec(s, max, step))
  {
    match step {
      case SpawnEligible =>
        SpawnAllSpawns(s.runners, s.dispatcher.eligible, |s.dispatcher.eligible|, |s.spawned|, max);
      case Operation(op) => OperationKeepsChecked(s, max, op);
      case CommitSettlement(t) => SettlementKeepsChecked(s, max, t);
      case _ =>
    }
  }

  // ----- clean runs

  /** A runner that commits finds its purchase still pending. */
  ghost predicate Clean(s: Sys, step: Step)
    requires Enabled(s, step)
  {
    step.CommitSettlement? ==> PendingIn(s.ledger.books, s.runners[step.task].purchase)
  }

  ghost predicate IsCleanRun(s: Sys, max: nat, steps: seq<Step>)
    requires IsRun(s, max, steps)
    decreases |steps|
  {
    steps == [] || (Clean(s, steps[0]) && IsCleanRun(Exec(s, max, steps[0]), max, steps[1..]))
  }

  /** A safe run is clean, and leaves every checked purchase pending. */
  lemma {:induction false} SafeRunIsClean(s: Sys, max: nat, steps: seq<Step>)
    requires CheckedIsPending(s) && TrackerLaw(s) && TickLaw(s) && IsSafeRun(s, max, steps)
    ensures IsRun(s, max, steps) && IsCleanRun(s, max, steps) && CheckedIsPending(RunSteps(s, max, steps))
    decreases |steps|
  {
    SafeRunIsRun(s, max, steps);
    if steps == [] {
    } else {
      StepKeepsChecked(s, max, steps[0]);
      StepKeepsTrackerLaw(s, max, steps[0]);
      StepKeepsTickLaw(s, max, steps[0]);
      SafeRunIsClean(Exec(s, max, steps[0]), max, steps[1..]);
    }
  }

  lemma CleanStepKeepsLedger(s: Sys, max: nat, step: Step)
    requires Consistent(s.ledger) && Enabled(s, step) && Clean(s, step)
    ensures Consistent(Exec(s, max, step).ledger)
  {
    match step {
      case Operation(op) =>
        if Guard(s.ledger.books, op).None? {
          CommitKeepsConsistent(s.ledger, op);
        }
      case CommitSettlement(t) => CommitKeepsConsistent(s.ledger, Decision(s.runners[t]));
      case _ =>
    }
  }

  lemma UncleanStepGarbles(s: Sys, max: nat, t: nat)
    requires Consistent(s.ledger) && Enabled(s, CommitSettlement(t)) && !Clean(s, CommitSettlement(t))
    ensures !WellFormed(EventsOf(Exec(s, max, CommitSettlement(t)).ledger.log, s.runners[t].purchase))
  {
    SettledTwiceIsMalformed(s.ledger, Decision(s.runners[t]));
  }

  lemma StepExtendsLog(s: Sys, max: nat, step: Step)
    requires Enabled(s, step)
    ensures s.ledger.log <= Exec(s, max, step).ledger.log
  {
  }

  lemma {:induction false} RunExtendsLog(s: Sys, max: nat, steps: seq<Step>)
    requires IsRun(s, max, steps)
    ensures s.ledger.log <= RunSteps(s, max, steps).ledger.log
    decreases |steps|
  {
    if steps == [] {
    } else {
      StepExtendsLog(s, max, steps[0]);
      RunExtendsLog(Exec(s, max, steps[0]), max, steps[1..]);
    }
  }

  lemma MalformedStays(log: seq<Event>, log': seq<Event>, id: Uuid)
    requires log <= log' && !WellFormed(EventsOf(log, id))
    ensures !WellFormed(EventsOf(log', id))
  {
    assert log' == log + log'[|log|..];
    EventsOfConcat(log, log'[|log|..], id);
    if WellFormed(EventsOf(log', id)) {
      PrefixOfWellFormed(EventsOf(log, id), EventsOf(log'[|log|..], id));
    }
  }

  /**
   * In every interleaving, with admin operations at any point: the laws of the ledger hold at the end exactly
   * when every runner that committed found its purchase still pending.
   */
  lemma {:induction false} RunKeepsLedgerIff(s: Sys, max: nat, steps: seq<Step>)
    requires Consistent(s.ledger) && IsRun(s, max, steps)
    ensures Consistent(RunSteps(s, max, steps).ledger) <==> IsCleanRun(s, max, steps)
    decreases |steps|
  {
    if steps == [] {
    } else if Clean(s, steps[0]) {
      CleanStepKeepsLedger(s, max, steps[0]);
      RunKeepsLedgerIff(Exec(s, max, steps[0]), max, steps[1..]);
    } else {
      var s', id := Exec(s, max, steps[0]), s.runners[steps[0].task].purchase;
      UncleanStepGarbles(s, max, steps[0].task);
      RunExtendsLog(s', max, steps[1..]);
      MalformedStays(s'.ledger.log, RunSteps(s', max, steps[1..]).ledger.log, id);
      assert !LogAgrees(RunSteps(s', max, steps[1..]).ledger, id);
    }
  }

  /** Over every safe run the ledger, three-books and event-log laws hold at every point. */
  lemma SafeRunKeepsLedger(s: Sys, max: nat, steps: seq<Step>)
    requires Consistent(s.ledger) && CheckedIsPending(s) && TrackerLaw(s) && TickLaw(s)
    requires IsSafeRun(s, max, steps)
    ensures IsRun(s, max, steps)
    ensures Consistent(RunSteps(s, max, steps).ledger) && CheckedIsPending(RunSteps(s, max, steps))
  {
    SafeRunIsClean(s, max, steps);
    RunKeepsLedgerIff(s, max, steps);
  }

  /** From startup on. */
  lemma StartupRunKeepsLedger(max: nat, steps: seq<Step>)
    requires IsSafeRun(STARTUP, max, steps)
    ensures IsRun(STARTUP, max, steps) && Consistent(RunSteps(STARTUP, max, steps).ledger)
  {
    InitialIsConsistent();
    SafeRunKeepsLedger(STARTUP, max, steps);
  }

  // ----- a clean run is a sequence of whole operations

  /** The operation whose transaction a step commits or refuses, if any. */
  function OpOf(s: Sys, step: Step): seq<Op>
    requires Enabled(s, step)
  {
    match step
    case Operation(op) => [op]
    case CommitSettlement(t) => [Decision(s.runners[t])]
    case _ => []
  }

  /** A run's operations, in commit order. */
  ghost function OpsOf(s: Sys, max: nat, steps: seq<Step>): seq<Op>
    requires IsRun(s, max, steps)
    decreases |steps|
  {
    if steps == [] then [] else OpOf(s, steps[0]) + OpsOf(Exec(s, max, steps[0]), max, steps[1..])
  }

  lemma StepIsOperation(s: Sys, max: nat, step: Step)
    requires Enabled(s, step) && Clean(s, step)
    ensures Exec(s, max, step).ledger
         == if OpOf(s, step) == [] then s.ledger else Apply(s.ledger, OpOf(s, step)[0])
  {
  }

  lemma RunOfOneMore(s: State, first: seq<Op>, rest: seq<Op>)
    requires |first| <= 1
    ensures Run(s, first + rest) == Run(if first == [] then s else Apply(s, first[0]), rest)
  {
    if first == [] {
      assert first + rest == rest;
    } else {
      assert (first + rest)[1..] == rest;
    }
  }

  /** A clean run leaves the ledger that its operations leave when each is run whole, in commit order. */
  lemma {:induction false} CleanRunIsSequential(s: Sys, max: nat, steps: seq<Step>)
    requires IsRun(s, max, steps) && IsCleanRun(s, max, steps)
    ensures RunSteps(s, max, steps).ledger == Run(s.ledger, OpsOf(s, max, steps))
    decreases |steps|
  {
    if steps == [] {
    } else {
      var s' := Exec(s, max, steps[0]);
      StepIsOperation(s, max, steps[0]);
      CleanRunIsSequential(s', max, steps[1..]);
      RunOfOneMore(s.ledger, OpOf(s, steps[0]), OpsOf(s', max, steps[1..]));
    }
  }

  /**
   * Over every clean run from startup, the wallet statements on a purchase take its cashback from the pending
   * balance once, and all of it, if the purchase is settled and has any cashback; otherwise they take nothing.
   */
  lemma CleanRunSettlesOnce(max: nat, steps: seq<Step>, id: Uuid)
    requires IsRun(STARTUP, max, steps) && IsCleanRun(STARTUP, max, steps)
    ensures var b := RunSteps(STARTUP, max, steps).ledger.books;
            var debits := PendingDebits(INITIAL, OpsOf(STARTUP, max, steps), id);
            if Settled(b, id) then IsTheDebit(debits, b, id) else debits == []
  {
    CleanRunIsSequential(STARTUP, max, steps);
    SettledOnce(INITIAL, OpsOf(STARTUP, max, steps), id);
  }

  // ----- the settlement of a purchase that is no longer pending

  /**
   * A runner commits without looking at the status again. Its commit keeps the ledger law exactly when the
   * purchase is still pending or carries no cashback, and all the laws exactly when it is still pending.
   */
  lemma SettlementKeepsLawsIff(s: Sys, max: nat, t: nat)
    requires Consistent(s.ledger) && Enabled(s, CommitSettlement(t))
    ensures var p := s.ledger.books.purchases[s.runners[t].purchase];
            var s' := Exec(s, max, CommitSettlement(t));
            && (LedgerLaw(s'.ledger) <==> p.status == Pending || p.cashback == 0)
            && (Consistent(s'.ledger) <==> p.status == Pending)
  {
    SettlementKeepsLedgerLawIff(s.ledger, Decision(s.runners[t]));
    SettlementKeepsConsistentIff(s.ledger, Decision(s.runners[t]));
  }

  /** An admin's confirmation between a runner's status check and its commit breaks the ledger law. */
  lemma RaceBreaksLedgerLaw(s: Sys, max: nat, t: nat)
    requires Consistent(s.ledger) && Enabled(s, CommitSettlement(t))
    requires PendingIn(s.ledger.books, s.runners[t].purchase)
    requires s.ledger.books.purchases[s.runners[t].purchase].cashback > 0
    ensures var s1 := Exec(s, max, Operation(ConfirmByAdmin(s.runners[t].purchase)));
            Enabled(s1, CommitSettlement(t)) && !LedgerLaw(Exec(s1, max, CommitSettlement(t)).ledger)
  {
    var id := s.runners[t].purchase;
    var s1 := Exec(s, max, Operation(ConfirmByAdmin(id)));
    CommitKeepsConsistent(s.ledger, ConfirmByAdmin(id));
    SettlementRows(s.ledger, ConfirmByAdmin(id));
    SettlementKeepsLawsIff(s1, max, t);
  }

  /** One purchase has been ingested since startup, and the dispatcher's tick is at `d`. */
  function Ticking(id: Uuid, req: Request, d: Dispatcher): Sys {
    STARTUP.(ledger := Apply(INITIAL, Ingest(id, req)), dispatcher := d)
  }

  /** The tick is over; the purchase's runner, task 0, is at `phase`. */
  function Running(id: Uuid, req: Request, phase: Phase): Sys {
    Sys(Apply(INITIAL, Ingest(id, req)), [], [], [], map[id := 0], map[0 := Runner(id, phase)], Idle, [id], {})
  }

  /** The steps that bring one new purchase to the point where its runner is about to commit. */
  function UpToCommit(id: Uuid, req: Request): seq<Step> {
    var c := CandidateOf(id, NewPurchase(req));
    [Operation(Ingest(id, req))] + ([Snapshot([c])] + ([FilterTracked] + ([EvaluateFlags] + ([SpawnEligible]
      + ([Read(0)] + [Verify(0, Approve)])))))
  }

  lemma RunnerReachesCommit(id: Uuid, req: Request, max: nat)
    requires Guard(INITIAL.books, Ingest(id, req)).None?
    ensures Leads(Running(id, req, Reading(1)), max, [Read(0)] + [Verify(0, Approve)],
                  Running(id, req, Settling(true)))
  {
    var s5, s6, s7 := Running(id, req, Reading(1)), Running(id, req, Verifying(1)), Running(id, req, Settling(true));
    assert Exec(s6, max, Verify(0, Approve)) == s7;
    LeadsStep(s6, max, Verify(0, Approve), [], s7);
    assert [Verify(0, Approve)] + [] == [Verify(0, Approve)];
    assert Exec(s5, max, Read(0)) == s6;
    LeadsStep(s5, max, Read(0), [Verify(0, Approve)], s7);
  }

  lemma TickSpawnsRunner(id: Uuid, req: Request, max: nat)
    requires Guard(INITIAL.books, Ingest(id, req)).None?
    ensures var c := CandidateOf(id, NewPurchase(req));
            Exec(Ticking(id, req, Flagged([c])), max, SpawnEligible) == Running(id, req, FirstPhase(max))
  {
    var c := CandidateOf(id, NewPurchase(req));
    assert Ids([c]) == [id];
    assert AddAll(map[], [c], 0, 0) == map[];
    assert SpawnAll(map[], [c], 0, 0, max) == map[];
  }

  lemma LoneCandidate(c: Candidate)
    ensures EligibleOf([], [c]) == [c] && Untracked(map[], [c]) == [c]
  {
    assert [c][..0] == [];
    assert Flags.Get([], AUTO_CONFIRM, UserScope(c)).None? && Flags.Get([], AUTO_CONFIRM, MerchantScope(c)).None?;
  }

  lemma TickReachesCommit(id: Uuid, req: Request, max: nat)
    requires max > 0 && Guard(INITIAL.books, Ingest(id, req)).None?
    ensures Leads(Ticking(id, req, Snapshotted([CandidateOf(id, NewPurchase(req))])), max,
                  [FilterTracked] + ([EvaluateFlags] + ([SpawnEligible] + ([Read(0)] + [Verify(0, Approve)]))),
                  Running(id, req, Settling(true)))
  {
    var c := CandidateOf(id, NewPurchase(req));
    var end := Running(id, req, Settling(true));
    var rest := [Read(0)] + [Verify(0, Approve)];
    LoneCandidate(c);
    RunnerReachesCommit(id, req, max);
    TickSpawnsRunner(id, req, max);
    LeadsStep(Ticking(id, req, Flagged([c])), max, SpawnEligible, rest, end);
    LeadsStep(Ticking(id, req, Filtered([c])), max, EvaluateFlags, [SpawnEligible] + rest, end);
    LeadsStep(Ticking(id, req, Snapshotted([c])), max, FilterTracked, [EvaluateFlags] + ([SpawnEligible] + rest), end);
  }

  lemma CommitPointIsReachable(id: Uuid, req: Request, max: nat)
    requires max > 0 && Guard(INITIAL.books, Ingest(id, req)).None?
    ensures Leads(STARTUP, max, UpToCommit(id, req), Running(id, req, Settling(true)))
  {
    var c := CandidateOf(id, NewPurchase(req));
    var end := Running(id, req, Settling(true));
    var rest := [FilterTracked] + ([EvaluateFlags] + ([SpawnEligible] + ([Read(0)] + [Verify(0, Approve)])));
    TickReachesCommit(id, req, max);
    assert Apply(INITIAL, Ingest(id, req)).books.purchases == map[id := NewPurchase(req)];
    assert Exec(STARTUP, max, Operation(Ingest(id, req))) == Ticking(id, req, Idle);
    LeadsStep(Ticking(id, req, Idle), max, Snapshot([c]), rest, end);
    LeadsStep(STARTUP, max, Operation(Ingest(id, req)), [Snapshot([c])] + rest, end);
  }

  /** The race can really happen: for every accepted ingestion with cashback some run from startup ends in it. */
  lemma RaceIsReachable(id: Uuid, req: Request, max: nat)
    requires max > 0 && Guard(INITIAL.books, Ingest(id, req)).None? && CashbackOf(req) > 0
    ensures Leads(STARTUP, max, UpToCommit(id, req), Running(id, req, Settling(true)))
    ensures var s1 := Exec(Running(id, req, Settling(true)), max, Operation(ConfirmByAdmin(id)));
            Enabled(s1, CommitSettlement(0)) && !LedgerLaw(Exec(s1, max, CommitSettlement(0)).ledger)
  {
    CommitPointIsReachable(id, req, max);
    InitialIsConsistent();
    CommitKeepsConsistent(INITIAL, Ingest(id, req));
    RaceBreaksLedgerLaw(Running(id, req, Settling(true)), max, 0);
  }
}
