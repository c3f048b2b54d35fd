/** What every interleaving of the verification job keeps. */
module ProtocolLaws {
  import opened Wrappers
  import opened Ledger
  import opened LedgerLaws
  import Flags
  import opened Eligibility
  import opened Protocol

  // ----- one live runner per purchase

  /** The tracker's keys are exactly the purchases with a live runner, and each has only that one. */
  ghost predicate TrackerLaw(s: Sys) {
    && (forall t :: t in s.runners ==>
          && t < |s.spawned| && s.spawned[t] == s.runners[t].purchase
          && s.runners[t].purchase in s.tracker && s.tracker[s.runners[t].purchase] == t)
    && (forall id :: id in s.tracker ==> s.tracker[id] in s.runners && s.runners[s.tracker[id]].purchase == id)
  }

  /** The lists a suspended tick holds name each purchase once; after filtering, none of them is tracked. */
  ghost predicate TickLaw(s: Sys) {
    match s.dispatcher
    case Idle => true
    case Stopped => true
    case Snapshotted(cs) => DistinctIds(cs)
    case Filtered(cs) => DistinctIds(cs) && forall c :: c in cs ==> c.id !in s.tracker
    case Flagged(cs) => DistinctIds(cs) && forall c :: c in cs ==> c.id !in s.tracker
  }

  lemma {:induction false} UntrackedIsDistinct(tracker: map<Uuid, nat>, cs: seq<Candidate>)
    requires DistinctIds(cs)
    ensures DistinctIds(Untracked(tracker, cs))
  {
    if cs == [] {
    } else {
      var front, last := cs[..|cs| - 1], cs[|cs| - 1];
      UntrackedIsDistinct(tracker, front);
      assert forall c :: c in front ==> c.id != last.id;
    }
  }

  lemma {:induction false} EligibleIsDistinct(rows: seq<Flags.Flag>, cs: seq<Candidate>)
    requires DistinctIds(cs)
    ensures DistinctIds(EligibleOf(rows, cs))
  {
    if cs == [] {
    } else {
      var front, last := cs[..|cs| - 1], cs[|cs| - 1];
      EligibleIsDistinct(rows, front);
      assert forall c :: c in front ==> c.id != last.id;
    }
  }

  lemma {:induction false} AddAllAt(tracker: map<Uuid, nat>, cs: seq<Candidate>, n: nat, next: nat, i: nat)
    requires i < n <= |cs| && DistinctIds(cs)
    ensures cs[i].id in AddAll(tracker, cs, n, next) && AddAll(tracker, cs, n, next)[cs[i].id] == next + i
  {
    if i == n - 1 {
    } else {
      AddAllAt(tracker, cs, n - 1, next, i);
    }
  }

  lemma {:induction false} AddAllOther(tracker: map<Uuid, nat>, cs: seq<Candidate>, n: nat, next: nat, id: Uuid)
    requires n <= |cs| && forall i :: 0 <= i < n ==> cs[i].id != id
    ensures id in AddAll(tracker, cs, n, next) <==> id in tracker
    ensures id in tracker ==> AddAll(tracker, cs, n, next)[id] == tracker[id]
  {
    if n == 0 {
    } else {
      AddAllOther(tracker, cs, n - 1, next, id);
    }
  }

  lemma {:induction false} SpawnAllSpawns(runners: map<nat, Runner>, cs: seq<Candidate>, n: nat, next: nat, max: nat)
    requires n <= |cs|
    ensures forall t :: t in SpawnAll(runners, cs, n, next, max) <==> next <= t < next + n || t in runners
    ensures forall t ::
      next <= t < next + n ==> SpawnAll(runners, cs, n, next, max)[t] == Runner(cs[t - next].id, FirstPhase(max))
    ensures forall t :: t in runners && !(next <= t < next + n) ==> SpawnAll(runners, cs, n, next, max)[t] == runners[t]
  {
    if n == 0 {
    } else {
      SpawnAllSpawns(runners, cs, n - 1, next, max);
    }
  }

  lemma SpawnTracksRunner(s: Sys, max: nat, t: nat)
    requires TrackerLaw(s) && TickLaw(s) && s.dispatcher.Flagged?
    requires t in Exec(s, max, SpawnEligible).runners
    ensures var s' := Exec(s, max, SpawnEligible);
            && t < |s'.spawned| && s'.spawned[t] == s'.runners[t].purchase
            && s'.runners[t].purchase in s'.tracker && s'.tracker[s'.runners[t].purchase] == t
  {
    var cs, next := s.dispatcher.eligible, |s.spawned|;
    SpawnAllSpawns(s.runners, cs, |cs|, next, max);
    if t >= next {
      AddAllAt(s.tracker, cs, |cs|, next, t - next);
    } else {
      assert forall i :: 0 <= i < |cs| ==> cs[i] in cs;
      AddAllOther(s.tracker, cs, |cs|, next, s.runners[t].purchase);
    }
  }

  /** What the spawning leaves in the tracker for a purchase: the task of its candidate, or what was there. */
  lemma SpawnTracks(s: Sys, max: nat, id: Uuid) returns (i: nat)
    requires TickLaw(s) && s.dispatcher.Flagged? && id in Exec(s, max, SpawnEligible).tracker
    ensures var cs, t := s.dispatcher.eligible, Exec(s, max, SpawnEligible).tracker[id];
            if i < |cs| then cs[i].id == id && t == |s.spawned| + i else id in s.tracker && t == s.tracker[id]
  {
    var cs, next := s.dispatcher.eligible, |s.spawned|;
    if j :| 0 <= j < |cs| && cs[j].id == id {
      i := j;
      AddAllAt(s.tracker, cs, |cs|, next, i);
    } else {
      i := |cs|;
      AddAllOther(s.tracker, cs, |cs|, next, id);
    }
  }

  lemma SpawnRunsTracked(s: Sys, max: nat, id: Uuid)
    requires TrackerLaw(s) && TickLaw(s) && s.dispatcher.Flagged?
    requires id in Exec(s, max, SpawnEligible).tracker
    ensures var s' := Exec(s, max, SpawnEligible);
            s'.tracker[id] in s'.runners && s'.runners[s'.tracker[id]].purchase == id
  {
    var cs := s.dispatcher.eligible;
    var i := SpawnTracks(s, max, id);
    SpawnAllSpawns(s.runners, cs, |cs|, |s.spawned|, max);
  }

  /** Only spawning adds to the tracker, and what it adds was untracked when the tick filtered its list. */
  lemma SpawnKeepsTrackerLaw(s: Sys, max: nat)
    requires TrackerLaw(s) && TickLaw(s) && s.dispatcher.Flagged?
    ensures TrackerLaw(Exec(s, max, SpawnEligible))
  {
    var s' := Exec(s, max, SpawnEligible);
    forall t | t in s'.runners
      ensures t < |s'.spawned| && s'.spawned[t] == s'.runners[t].purchase
      ensures s'.runners[t].purchase in s'.tracker && s'.tracker[s'.runners[t].purchase] == t
    {
      SpawnTracksRunner(s, max, t);
    }
    forall id | id in s'.tracker
      ensures s'.tracker[id] in s'.runners && s'.runners[s'.tracker[id]].purchase == id
    {
      SpawnRunsTracked(s, max, id);
    }
  }

  lemma FinishKeepsTrackerLaw(s: Sys, t: nat)
    requires TrackerLaw(s) && t in s.runners
    ensures TrackerLaw(Finish(s, t))
  {
  }

  /** The step ends a task. */
  predicate Ends(s: Sys, step: Step) {
    match step
    case Read(t) => t in s.runners && !PendingIn(s.ledger.books, s.runners[t].purchase)
    case Publish(_) => true
    case Fail(_) => true
    case _ => false
  }

  /** The same tasks run for the same purchases. */
  ghost predicate SameTasks(s: Sys, s': Sys) {
    && s'.spawned == s.spawned && s'.tracker == s.tracker && s'.runners.Keys == s.runners.Keys
    && forall t :: t in s.runners ==> s'.runners[t].purchase == s.runners[t].purchase
  }

  lemma StepKeepsTaskSet(s: Sys, max: nat, step: Step)
    requires Enabled(s, step) && !step.SpawnEligible? && !Ends(s, step)
    ensures SameTasks(s, Exec(s, max, step)) && Exec(s, max, step).failed == s.failed
  {
  }

  lemma EndsAsFinish(s: Sys, max: nat, step: Step)
    requires Enabled(s, step) && Ends(s, step)
    ensures SameTasks(Finish(s, step.task), Exec(s, max, step))
  {
  }

  lemma SameTasksKeepTrackerLaw(s: Sys, s': Sys)
    requires TrackerLaw(s) && SameTasks(s, s')
    ensures TrackerLaw(s')
  {
  }

  lemma StepKeepsTrackerLaw(s: Sys, max: nat, step: Step)
    requires TrackerLaw(s) && TickLaw(s) && Enabled(s, step)
    ensures TrackerLaw(Exec(s, max, step))
  {
    if step.SpawnEligible? {
      SpawnKeepsTrackerLaw(s, max);
    } else if Ends(s, step) {
      FinishKeepsTrackerLaw(s, step.task);
      EndsAsFinish(s, max, step);
      SameTasksKeepTrackerLaw(Finish(s, step.task), Exec(s, max, step));
    } else {
      StepKeepsTaskSet(s, max, step);
      SameTasksKeepTrackerLaw(s, Exec(s, max, step));
    }
  }

  /** Between filtering and spawning the tracker only shrinks. */
  lemma StepKeepsTickLaw(s: Sys, max: nat, step: Step)
    requires TickLaw(s) && Enabled(s, step)
    ensures TickLaw(Exec(s, max, step))
  {
    match step {
      case FilterTracked => UntrackedIsDistinct(s.tracker, s.dispatcher.pending);
      case EvaluateFlags => EligibleIsDistinct(s.flags, s.dispatcher.untracked);
      case _ =>
    }
  }

  /** In every interleaving, whatever fails and whatever admins do, no purchase ever has two live runners. */
  lemma {:induction false} RunKeepsTrackerLaw(s: Sys, max: nat, steps: seq<Step>)
    requires TrackerLaw(s) && TickLaw(s) && IsRun(s, max, steps)
    ensures TrackerLaw(RunSteps(s, max, steps)) && TickLaw(RunSteps(s, max, steps))
    decreases |steps|
  {
    if steps == [] {
    } else {
      StepKeepsTrackerLaw(s, max, steps[0]);
      StepKeepsTickLaw(s, max, steps[0]);
      RunKeepsTrackerLaw(Exec(s, max, steps[0]), max, steps[1..]);
    }
  }

  lemma OneRunnerPerPurchase(s: Sys, t: nat, u: nat)
    requires TrackerLaw(s) && t in s.runners && u in s.runners && s.runners[t].purchase == s.runners[u].purchase
    ensures t == u
  {
  }

  // ----- the rows behind the runners

  /** Rows are never deleted, keep their user and merchant, and do not return to pending. */
  ghost predicate Forward(b: Books, b': Books) {
    forall id :: id in b.purchases ==>
      && id in b'.purchases && CandidateOf(id, b'.purchases[id]) == CandidateOf(id, b.purchases[id])
      && (PendingIn(b', id) ==> PendingIn(b, id))
  }

  lemma IngestIsForward(b: Books, id: Uuid, req: Request)
    requires id !in b.purchases
    ensures Forward(b, Ingested(b, id, req))
  {
    assert Ingested(b, id, req).purchases == b.purchases[id := NewPurchase(req)];
  }

  /** An operation on a known purchase rewrites its row, which keeps its user and merchant. */
  lemma OwnRowIsForward(b: Books, op: Op)
    requires !op.Ingest? && op.id in b.purchases
    ensures var p := Write(b, op).purchases[op.id];
            CandidateOf(op.id, p) == CandidateOf(op.id, b.purchases[op.id]) && p.status != Pending
  {
    WriteFramesPurchases(b, op, op.id);
  }

  lemma WriteIsForward(b: Books, op: Op)
    requires if op.Ingest? then op.id !in b.purchases else op.id in b.purchases
    ensures Forward(b, Write(b, op))
  {
    if op.Ingest? {
      IngestIsForward(b, op.id, op.request);
    } else {
      OwnRowIsForward(b, op);
      forall id | id in b.purchases && id != op.id
        ensures id in Write(b, op).purchases && Write(b, op).purchases[id] == b.purchases[id]
      {
        WriteFramesPurchases(b, op, id);
      }
    }
  }

  lemma StepIsForward(s: Sys, max: nat, step: Step)
    requires Enabled(s, step)
    ensures Forward(s.ledger.books, Exec(s, max, step).ledger.books)
  {
    match step {
      case Operation(op) =>
        if Guard(s.ledger.books, op).None? {
          WriteIsForward(s.ledger.books, op);
        }
      case CommitSettlement(t) => WriteIsForward(s.ledger.books, Decision(s.runners[t]));
      case _ =>
    }
  }

  function Listed(d: Dispatcher): seq<Candidate> {
    match d
    case Idle => []
    case Stopped => []
    case Snapshotted(cs) => cs
    case Filtered(cs) => cs
    case Flagged(cs) => cs
  }

  /** Every listed purchase has its row. */
  ghost predicate ListedLaw(s: Sys) {
    forall c :: c in Listed(s.dispatcher) ==>
      c.id in s.ledger.books.purchases && c == CandidateOf(c.id, s.ledger.books.purchases[c.id])
  }

  /** Every running purchase has its row, and a runner that has committed left it settled. */
  ghost predicate RunningLaw(s: Sys) {
    forall t :: t in s.runners ==>
      && s.runners[t].purchase in s.ledger.books.purchases
      && (s.runners[t].phase.Publishing? ==> !PendingIn(s.ledger.books, s.runners[t].purchase))
  }

  ghost predicate RowsLaw(s: Sys) {
    ListedLaw(s) && RunningLaw(s)
  }

  /** Only a snapshot lists new purchases. */
  lemma ListedShrinks(s: Sys, max: nat, step: Step)
    requires Enabled(s, step) && !step.Snapshot?
    ensures forall c :: c in Listed(Exec(s, max, step).dispatcher) ==> c in Listed(s.dispatcher)
  {
  }

  lemma StepKeepsListedLaw(s: Sys, max: nat, step: Step)
    requires ListedLaw(s) && Enabled(s, step)
    ensures ListedLaw(Exec(s, max, step))
  {
    if !step.Snapshot? {
      ListedShrinks(s, max, step);
      StepIsForward(s, max, step);
    }
  }

  lemma SpawnKeepsRunningLaw(s: Sys, max: nat)
    requires RowsLaw(s) && s.dispatcher.Flagged?
    ensures RunningLaw(Exec(s, max, SpawnEligible))
  {
    var cs, next := s.dispatcher.eligible, |s.spawned|;
    SpawnAllSpawns(s.runners, cs, |cs|, next, max);
    forall t | t in SpawnAll(s.runners, cs, |cs|, next, max)
      ensures var r := SpawnAll(s.runners, cs, |cs|, next, max)[t];
              && r.purchase in s.ledger.books.purchases
              && (r.phase.Publishing? ==> !PendingIn(s.ledger.books, r.purchase))
    {
      if next <= t < next + |cs| {
        assert cs[t - next] in Listed(s.dispatcher);
      } else {
        assert t in s.runners;
      }
    }
  }

  lemma SettlementKeepsRunningLaw(s: Sys, max: nat, t: nat)
    requires RunningLaw(s) && Enabled(s, CommitSettlement(t))
    ensures RunningLaw(Exec(s, max, CommitSettlement(t)))
  {
    StepIsForward(s, max, CommitSettlement(t));
    WriteFramesPurchases(s.ledger.books, Decision(s.runners[t]), s.runners[t].purchase);
  }

  /** Only spawning starts tasks, and only a commit makes one publish. */
  lemma RunnersShrink(s: Sys, max: nat, step: Step)
    requires Enabled(s, step) && !step.SpawnEligible? && !step.CommitSettlement?
    ensures forall t :: t in Exec(s, max, step).runners ==>
      && t in s.runners && Exec(s, max, step).runners[t].purchase == s.runners[t].purchase
      && (Exec(s, max, step).runners[t].phase.Publishing? ==> s.runners[t].phase.Publishing?)
  {
  }

  lemma StepKeepsRunningLaw(s: Sys, max: nat, step: Step)
    requires RowsLaw(s) && Enabled(s, step)
    ensures RunningLaw(Exec(s, max, step))
  {
    if step.SpawnEligible? {
      SpawnKeepsRunningLaw(s, max);
    } else if step.CommitSettlement? {
      SettlementKeepsRunningLaw(s, max, step.task);
    } else {
      RunnersShrink(s, max, step);
      StepIsForward(s, max, step);
    }
  }

  lemma StepKeepsRowsLaw(s: Sys, max: nat, step: Step)
    requires RowsLaw(s) && Enabled(s, step)
    ensures RowsLaw(Exec(s, max, step))
  {
    StepKeepsListedLaw(s, max, step);
    StepKeepsRunningLaw(s, max, step);
  }

  // ----- drain

  /** Every task ever spawned is live, or died of an exception, or has left its purchase settled. */
  ghost predicate DrainLaw(s: Sys) {
    forall t :: 0 <= t < |s.spawned| ==>
      t in s.runners || t in s.failed
      || (s.spawned[t] in s.ledger.books.purchases && !PendingIn(s.ledger.books, s.spawned[t]))
  }

  lemma SpawnKeepsDrainLaw(s: Sys, max: nat)
    requires DrainLaw(s) && s.dispatcher.Flagged?
    ensures DrainLaw(Exec(s, max, SpawnEligible))
  {
    SpawnAllSpawns(s.runners, s.dispatcher.eligible, |s.dispatcher.eligible|, |s.spawned|, max);
  }

  /** A runner that ends without an exception leaves its purchase settled. */
  lemma EndKeepsDrainLaw(s: Sys, t: nat)
    requires DrainLaw(s) && t in s.runners && t < |s.spawned| && s.spawned[t] in s.ledger.books.purchases
    requires t in s.failed || !PendingIn(s.ledger.books, s.spawned[t])
    ensures DrainLaw(Finish(s, t))
  {
  }

  /** No task leaves, and no purchase returns to pending. */
  lemma ForwardKeepsDrainLaw(s: Sys, s': Sys)
    requires DrainLaw(s) && Forward(s.ledger.books, s'.ledger.books)
    requires s'.spawned == s.spawned && s'.failed == s.failed && s'.runners.Keys == s.runners.Keys
    ensures DrainLaw(s')
  {
  }

  lemma EndingKeepsDrainLaw(s: Sys, max: nat, step: Step)
    requires DrainLaw(s) && RowsLaw(s) && TrackerLaw(s) && Enabled(s, step) && Ends(s, step)
    ensures DrainLaw(Exec(s, max, step))
  {
    match step {
      case Read(t) => EndKeepsDrainLaw(s, t);
      case Publish(t) => EndKeepsDrainLaw(Deliver(s, s.runners[t].phase.event), t);
      case Fail(t) => EndKeepsDrainLaw(s.(failed := s.failed + {t}), t);
    }
  }

  lemma StepKeepsDrainLaw(s: Sys, max: nat, step: Step)
    requires DrainLaw(s) && RowsLaw(s) && TrackerLaw(s) && Enabled(s, step)
    ensures DrainLaw(Exec(s, max, step))
  {
    if step.SpawnEligible? {
      SpawnKeepsDrainLaw(s, max);
    } else if Ends(s, step) {
      EndingKeepsDrainLaw(s, max, step);
    } else {
      StepIsForward(s, max, step);
      StepKeepsTaskSet(s, max, step);
      ForwardKeepsDrainLaw(s, Exec(s, max, step));
    }
  }

  lemma StepKeepsTasks(s: Sys, max: nat, step: Step)
    requires Enabled(s, step)
    ensures s.spawned <= Exec(s, max, step).spawned && s.failed <= Exec(s, max, step).failed
  {
  }

  ghost predicate JobLaw(s: Sys) {
    TrackerLaw(s) && TickLaw(s) && RowsLaw(s) && DrainLaw(s)
  }

  lemma StepKeepsJobLaw(s: Sys, max: nat, step: Step)
    requires JobLaw(s) && Enabled(s, step)
    ensures JobLaw(Exec(s, max, step))
    ensures s.spawned <= Exec(s, max, step).spawned && s.failed <= Exec(s, max, step).failed
  {
    StepKeepsTrackerLaw(s, max, step);
    StepKeepsTickLaw(s, max, step);
    StepKeepsRowsLaw(s, max, step);
    StepKeepsDrainLaw(s, max, step);
    StepKeepsTasks(s, max, step);
  }

  /** The laws of the job hold after every interleaving. */
  lemma {:induction false} RunKeepsJobLaw(s: Sys, max: nat, steps: seq<Step>)
    requires JobLaw(s) && IsRun(s, max, steps)
    ensures JobLaw(RunSteps(s, max, steps))
    ensures s.spawned <= RunSteps(s, max, steps).spawned && s.failed <= RunSteps(s, max, steps).failed
    decreases |steps|
  {
    if steps == [] {
    } else {
      StepKeepsJobLaw(s, max, steps[0]);
      RunKeepsJobLaw(Exec(s, max, steps[0]), max, steps[1..]);
    }
  }

  lemma StartupJobLaw()
    ensures JobLaw(STARTUP)
  {
  }

  /** From startup on, in every interleaving. */
  lemma EveryRunKeepsJobLaw(max: nat, steps: seq<Step>)
    requires IsRun(STARTUP, max, steps)
    ensures JobLaw(RunSteps(STARTUP, max, steps))
  {
    StartupJobLaw();
    RunKeepsJobLaw(STARTUP, max, steps);
  }

  /** Whenever the flags are evaluated for the purchase, its user and merchant are enabled. */
  ghost predicate FoundEligible(s: Sys, max: nat, steps: seq<Step>, c: Candidate)
    requires IsRun(s, max, steps)
    decreases |steps|
  {
    steps == []
    || (&& (steps[0].EvaluateFlags? && c in Listed(s.dispatcher) ==> Eligible(s.flags, c))
        && FoundEligible(Exec(s, max, steps[0]), max, steps[1..], c))
  }

  lemma {:induction false} StoppedStays(s: Sys, max: nat, steps: seq<Step>)
    requires s.dispatcher.Stopped? && IsRun(s, max, steps)
    ensures RunSteps(s, max, steps).dispatcher.Stopped?
    decreases |steps|
  {
    if steps == [] {
    } else {
      StoppedStays(Exec(s, max, steps[0]), max, steps[1..]);
    }
  }

  lemma SpawnedTask(s: Sys, max: nat, c: Candidate) returns (t: nat)
    requires s.dispatcher.Flagged? && c in s.dispatcher.eligible
    ensures var s1 := Exec(s, max, SpawnEligible); |s.spawned| <= t < |s1.spawned| && s1.spawned[t] == c.id
  {
    var cs, next := s.dispatcher.eligible, |s.spawned|;
    var i :| 0 <= i < |cs| && cs[i] == c;
    t := next + i;
    assert (s.spawned + Ids(cs))[t] == Ids(cs)[i];
  }

  /** A listed purchase stays listed until it is found tracked, or gets a task, or the tick raises. */
  lemma StepKeepsListed(s: Sys, max: nat, step: Step, c: Candidate)
    requires Enabled(s, step) && c in Listed(s.dispatcher) && !step.SpawnEligible? && !step.FailTick?
    requires step.FilterTracked? ==> c.id !in s.tracker
    requires step.EvaluateFlags? ==> Eligible(s.flags, c)
    ensures var s' := Exec(s, max, step);
            c in Listed(s'.dispatcher) && s'.runners.Keys <= s.runners.Keys && s'.spawned == s.spawned
  {
  }

  /** Every purchase of a tick's snapshot has a task by the end of the tick, from before it or from it. */
  lemma {:induction false} TickCovers(s: Sys, max: nat, tick: seq<Step>, c: Candidate) returns (t: nat)
    requires JobLaw(s) && c in Listed(s.dispatcher) && IsRun(s, max, tick) && FoundEligible(s, max, tick, c)
    requires RunSteps(s, max, tick).dispatcher.Idle?
    ensures var s1 := RunSteps(s, max, tick);
            t < |s1.spawned| && s1.spawned[t] == c.id && (t in s.runners || t >= |s.spawned|)
    decreases |tick|
  {
    RunKeepsJobLaw(s, max, tick);
    var s', rest := Exec(s, max, tick[0]), tick[1..];
    StepKeepsJobLaw(s, max, tick[0]);
    RunKeepsJobLaw(s', max, rest);
    if tick[0].FilterTracked? && c.id in s.tracker {
      t := s.tracker[c.id];
    } else if tick[0].SpawnEligible? {
      t := SpawnedTask(s, max, c);
    } else if tick[0].FailTick? {
      StoppedStays(s', max, rest);
      assert false;
    } else {
      StepKeepsListed(s, max, tick[0], c);
      t := TickCovers(s', max, rest, c);
    }
  }

  lemma EndedTask(s1: Sys, s2: Sys, t: nat)
    requires DrainLaw(s2) && s1.spawned <= s2.spawned && t < |s1.spawned| && t !in s2.runners && t !in s2.failed
    ensures s1.spawned[t] in s2.ledger.books.purchases && s2.ledger.books.purchases[s1.spawned[t]].status != Pending
  {
    assert s2.spawned[t] == s1.spawned[t];
  }

  /**
   * A purchase in a tick's snapshot that is not found disabled, whether it was in flight already or not, is
   * no longer pending once its own tasks, live during the tick or spawned by it, have ended without an exception.
   */
  lemma Drain(s: Sys, max: nat, tick: seq<Step>, rest: seq<Step>, c: Candidate)
    requires JobLaw(s) && s.dispatcher.Snapshotted? && c in s.dispatcher.pending
    requires IsRun(s, max, tick) && FoundEligible(s, max, tick, c)
    requires RunSteps(s, max, tick).dispatcher.Idle? && IsRun(RunSteps(s, max, tick), max, rest)
    requires var s1 := RunSteps(s, max, tick);
             var s2 := RunSteps(s1, max, rest);
             forall t :: 0 <= t < |s1.spawned| && s1.spawned[t] == c.id && (t in s.runners || |s.spawned| <= t) ==>
               t !in s2.runners && t !in s2.failed
    ensures var s2 := RunSteps(RunSteps(s, max, tick), max, rest);
            c.id in s2.ledger.books.purchases && s2.ledger.books.purchases[c.id].status != Pending
  {
    var s1 := RunSteps(s, max, tick);
    var t := TickCovers(s, max, tick, c);
    RunKeepsJobLaw(s, max, tick);
    RunKeepsJobLaw(s1, max, rest);
    EndedTask(s1, RunSteps(s1, max, rest), t);
  }

  // ----- termination of a runner

  /** The longest sequence of own steps from a phase to the end. */
  function Remaining(max: nat, phase: Phase): nat {
    match phase
    case Reading(a) => if a <= max then 5 + 3 * (max - a) else 5
    case Verifying(a) => if a <= max then 4 + 3 * (max - a) else 4
    case Settling(_) => 2
    case Sleeping(a) => if a < max then 3 + 3 * (max - a) else 6
    case LastReading => 3
    case ForceRejecting => 2
    case Publishing => 1
  }

  /** How many steps of its own a task can still take. */
  function Potential(s: Sys, max: nat, t: nat): nat {
    if t in s.runners then Remaining(max, s.runners[t].phase)
    else if t < |s.spawned| then 0
    else Remaining(max, FirstPhase(max))
  }

  lemma StepSpendsPotential(s: Sys, max: nat, step: Step, t: nat)
    requires TrackerLaw(s) && Enabled(s, step)
    ensures Potential(Exec(s, max, step), max, t) + (if OfTask(step, t) then 1 else 0) <= Potential(s, max, t)
  {
    if step.SpawnEligible? {
      SpawnAllSpawns(s.runners, s.dispatcher.eligible, |s.dispatcher.eligible|, |s.spawned|, max);
    }
  }

  function StepsOf(steps: seq<Step>, t: nat): nat {
    if steps == [] then 0 else (if OfTask(steps[0], t) then 1 else 0) + StepsOf(steps[1..], t)
  }

  /** Every step of a task spends some of its potential, and no other step adds any. */
  lemma {:induction false} StepsSpendPotential(s: Sys, max: nat, steps: seq<Step>, t: nat)
    requires TrackerLaw(s) && TickLaw(s) && IsRun(s, max, steps)
    ensures StepsOf(steps, t) + Potential(RunSteps(s, max, steps), max, t) <= Potential(s, max, t)
    decreases |steps|
  {
    if steps == [] {
    } else {
      StepSpendsPotential(s, max, steps[0], t);
      StepKeepsTrackerLaw(s, max, steps[0]);
      StepKeepsTickLaw(s, max, steps[0]);
      StepsSpendPotential(Exec(s, max, steps[0]), max, steps[1..], t);
    }
  }

  /** In any interleaving from startup a task takes at most 3 * max + 3 steps of its own, so every runner ends. */
  lemma TaskStepsAreBounded(max: nat, steps: seq<Step>, t: nat)
    requires IsRun(STARTUP, max, steps)
    ensures StepsOf(steps, t) <= 3 * max + 3
  {
    StepsSpendPotential(STARTUP, max, steps, t);
  }

  // ----- disabled purchases

  /** No step enables the scope's own row. */
  ghost predicate StaysDisabled(steps: seq<Step>, scope: Flags.Scope) {
    forall step :: step in steps && step.SetFlag? && step.write.key == AUTO_CONFIRM && step.write.scope == scope
      ==> !step.write.enabled
  }

  /** The purchase's own user or merchant row is disabled, and the job has not picked the purchase up. */
  ghost predicate LeftAlone(s: Sys, c: Candidate, scope: Flags.Scope) {
    && c.id in s.ledger.books.purchases && c == CandidateOf(c.id, s.ledger.books.purchases[c.id])
    && (scope == UserScope(c) || scope == MerchantScope(c))
    && !ScopeEnabled(s.flags, scope)
    && c.id !in s.tracker
    && (s.dispatcher.Flagged? ==> c !in s.dispatcher.eligible)
  }

  lemma StepKeepsDisabled(s: Sys, max: nat, step: Step, scope: Flags.Scope)
    requires !ScopeEnabled(s.flags, scope) && Enabled(s, step) && StaysDisabled([step], scope)
    ensures !ScopeEnabled(Exec(s, max, step).flags, scope)
  {
    if step.SetFlag? {
      assert step in [step];
      Flags.SetGets(s.flags, step.write, AUTO_CONFIRM, scope);
    }
  }

  /** Only spawning tracks purchases, and only those of the tick's list. */
  lemma StepKeepsUntracked(s: Sys, max: nat, step: Step, id: Uuid)
    requires Enabled(s, step) && id !in s.tracker
    requires step.SpawnEligible? ==> forall e :: e in s.dispatcher.eligible ==> e.id != id
    ensures id !in Exec(s, max, step).tracker
  {
    if step.SpawnEligible? {
      var cs := s.dispatcher.eligible;
      assert forall i :: 0 <= i < |cs| ==> cs[i] in cs;
      AddAllOther(s.tracker, cs, |cs|, |s.spawned|, id);
    }
  }

  lemma StepKeepsIneligible(s: Sys, max: nat, step: Step, c: Candidate, scope: Flags.Scope)
    requires LeftAlone(s, c, scope) && Enabled(s, step)
    ensures Exec(s, max, step).dispatcher.Flagged? ==> c !in Exec(s, max, step).dispatcher.eligible
  {
  }

  lemma StepLeavesAlone(s: Sys, max: nat, step: Step, c: Candidate, scope: Flags.Scope)
    requires LeftAlone(s, c, scope) && JobLaw(s) && Enabled(s, step) && StaysDisabled([step], scope)
    ensures LeftAlone(Exec(s, max, step), c, scope)
  {
    StepIsForward(s, max, step);
    StepKeepsDisabled(s, max, step, scope);
    StepKeepsIneligible(s, max, step, c, scope);
    if step.SpawnEligible? {
      assert forall e :: e in s.dispatcher.eligible ==> e == CandidateOf(e.id, s.ledger.books.purchases[e.id]);
    }
    StepKeepsUntracked(s, max, step, c.id);
  }

  lemma StepCommits(s: Sys, max: nat, step: Step)
    requires Enabled(s, step)
    ensures Exec(s, max, step).ledger.log == s.ledger.log + Committed(s, step) && |Committed(s, step)| <= 1
    ensures var es := Committed(s, step);
            || es == [] || ByAdmin(es[0])
            || (step.CommitSettlement? && es[0].id == s.runners[step.task].purchase)
  {
    match step {
      case Operation(op) =>
        if Guard(s.ledger.books, op).None? {
          PublishedIsOwn(s.ledger.books, op);
        }
      case _ =>
    }
  }

  /** A job's event of a purchase comes from a runner of that purchase. */
  lemma StepSettlesOnlyTracked(s: Sys, max: nat, step: Step, id: Uuid)
    requires TrackerLaw(s) && id !in s.tracker && Enabled(s, step)
    ensures var l, l' := s.ledger, Exec(s, max, step).ledger;
            && (PurchaseConfirmed(id) in l'.log <==> PurchaseConfirmed(id) in l.log)
            && (PurchaseRejected(id) in l'.log <==> PurchaseRejected(id) in l.log)
  {
    StepCommits(s, max, step);
  }

  lemma {:induction false} RunLeavesAlone(s: Sys, max: nat, steps: seq<Step>, c: Candidate, scope: Flags.Scope)
    requires LeftAlone(s, c, scope) && JobLaw(s) && IsRun(s, max, steps) && StaysDisabled(steps, scope)
    ensures var s' := RunSteps(s, max, steps);
            && c.id !in s'.tracker
            && (forall t :: t in s'.runners ==> s'.runners[t].purchase != c.id)
            && (PurchaseConfirmed(c.id) in s'.ledger.log <==> PurchaseConfirmed(c.id) in s.ledger.log)
            && (PurchaseRejected(c.id) in s'.ledger.log <==> PurchaseRejected(c.id) in s.ledger.log)
    decreases |steps|
  {
    if steps == [] {
    } else {
      assert steps[0] in steps;
      StepLeavesAlone(s, max, steps[0], c, scope);
      StepSettlesOnlyTracked(s, max, steps[0], c.id);
      StepKeepsJobLaw(s, max, steps[0]);
      RunLeavesAlone(Exec(s, max, steps[0]), max, steps[1..], c, scope);
    }
  }

  /** The row `f` switches automatic confirmation off for the purchase's user or for its merchant. */
  ghost predicate SwitchesOff(f: Flags.Flag, p: Purchase) {
    && f.key == Flags.Key("purchase_auto_confirm") && !f.enabled
    && (|| f.scope == Flags.Scope(Flags.User, Some(p.userId))
        || f.scope == Flags.Scope(Flags.Merchant, Some(p.merchantId)))
  }

  /** No step switches the row on again. */
  ghost predicate NeverOnAgain(steps: seq<Step>, f: Flags.Flag) {
    forall step :: step in steps && step.SetFlag? && step.write.key == f.key && step.write.scope == f.scope
      ==> !step.write.enabled
  }

  /**
   * A purchase that the job has not picked up, and that a row of its user or of its merchant switches off for
   * good, is never given a runner and never settled by the job, in any interleaving.
   */
  lemma DisabledIsLeftAlone(s: Sys, max: nat, steps: seq<Step>, id: Uuid, f: Flags.Flag)
    requires JobLaw(s) && IsRun(s, max, steps)
    requires Flags.Unique(s.flags) && f in s.flags && NeverOnAgain(steps, f)
    requires id in s.ledger.books.purchases && SwitchesOff(f, s.ledger.books.purchases[id]) && id !in s.tracker
    requires s.dispatcher.Flagged? ==> forall c :: c in s.dispatcher.eligible ==> c.id != id
    ensures var s' := RunSteps(s, max, steps);
            && id !in s'.tracker
            && (forall t :: t in s'.runners ==> s'.runners[t].purchase != id)
            && (PurchaseConfirmed(id) in s'.ledger.log <==> PurchaseConfirmed(id) in s.ledger.log)
            && (PurchaseRejected(id) in s'.ledger.log <==> PurchaseRejected(id) in s.ledger.log)
  {
    Flags.GetIsTheRow(s.flags, f.key, f.scope);
    RunLeavesAlone(s, max, steps, CandidateOf(id, s.ledger.books.purchases[id]), f.scope);
  }
}
