/** The interleaved machine does what the job's code does when a runner's attempts or a tick are not cut into. */
module Refinement {
  import opened Wrappers
  import opened Ledger
  import opened Protocol
  import opened Eligibility
  import opened Job

  lemma {:induction false} LeadsAppend(s: Sys, max: nat, xs: seq<Step>, s1: Sys, ys: seq<Step>, s2: Sys)
    requires Leads(s, max, xs, s1) && Leads(s1, max, ys, s2)
    ensures Leads(s, max, xs + ys, s2)
    decreases |xs|
  {
    if xs == [] {
      assert xs + ys == ys;
    } else {
      LeadsAppend(Exec(s, max, xs[0]), max, xs[1..], s1, ys, s2);
      LeadsStep(s, max, xs[0], xs[1..] + ys, s2);
      assert xs + ys == [xs[0]] + (xs[1..] + ys);
    }
  }

  lemma OneStep(s: Sys, max: nat, step: Step)
    requires Enabled(s, step)
    ensures Leads(s, max, [step], Exec(s, max, step))
  {
    LeadsStep(s, max, step, [], Exec(s, max, step));
    assert [step] + [] == [step];
  }

  lemma TwoSteps(s: Sys, max: nat, step: Step, step': Step)
    requires Enabled(s, step) && Enabled(Exec(s, max, step), step')
    ensures Leads(s, max, [step, step'], Exec(Exec(s, max, step), max, step'))
  {
    OneStep(Exec(s, max, step), max, step');
    LeadsStep(s, max, step, [step'], Exec(Exec(s, max, step), max, step'));
    assert [step] + [step'] == [step, step'];
  }

  // ----- whole operations

  /** Every committed event has been published, in commit order. */
  ghost predicate Tidy(s: Sys) {
    s.outbox == [] && s.published == s.ledger.log
  }

  /** The machine with another ledger, all of whose events have been published. */
  function At(s: Sys, l: State): Sys {
    s.(ledger := l, published := l.log)
  }

  /** What runs beside the job: ingestions and admin operations. */
  predicate External(ops: seq<Op>) {
    forall op :: op in ops ==> op.Ingest? || op.ConfirmByAdmin? || op.ReverseByAdmin?
  }

  lemma DeliverOnly(s: Sys, e: Event)
    requires s.outbox == [e]
    ensures Deliver(s, e) == s.(outbox := [], published := s.published + [e])
  {
  }

  /** An operation commits, and then its event is published. */
  lemma WholeOperation(s: Sys, max: nat, op: Op) returns (steps: seq<Step>)
    requires Tidy(s) && External([op])
    ensures Leads(s, max, steps, At(s, Apply(s.ledger, op)))
  {
    assert op in [op];
    var s1 := Exec(s, max, Operation(op));
    OneStep(s, max, Operation(op));
    if Guard(s.ledger.books, op).Some? || op.Ingest? {
      assert Guard(s.ledger.books, op).None? ==> s.outbox + Published(s.ledger.books, op) == [];
      steps := [Operation(op)];
    } else {
      var e := Published(s.ledger.books, op)[0];
      assert s1.outbox == [e];
      DeliverOnly(s1, e);
      TwoSteps(s, max, Operation(op), Announce(e));
      steps := [Operation(op), Announce(e)];
    }
  }

  // ----- a runner

  lemma {:induction false} ExternalRuns(s: Sys, max: nat, ops: seq<Op>) returns (steps: seq<Step>)
    requires Tidy(s) && External(ops)
    ensures Leads(s, max, steps, At(s, Run(s.ledger, ops)))
    decreases |ops|
  {
    if ops == [] {
      steps := [];
    } else {
      assert ops[0] in ops;
      var s1 := At(s, Apply(s.ledger, ops[0]));
      var first := WholeOperation(s, max, ops[0]);
      var rest := ExternalRuns(s1, max, ops[1..]);
      LeadsAppend(s, max, first, s1, rest, At(s, Run(s.ledger, ops)));
      steps := first + rest;
    }
  }

  function ReadPhase(max: nat, i: nat): Phase {
    if i < max then Reading(i + 1) else LastReading
  }

  /** A task that holds a decision commits it, whatever the row says by then, publishes and ends. */
  lemma SettleAndEnd(s: Sys, max: nat, t: nat)
    requires t in s.runners && (s.runners[t].phase.Settling? || s.runners[t].phase.ForceRejecting?)
    requires Tidy(s) && s.runners[t].purchase in s.ledger.books.purchases
    ensures Leads(s, max, [CommitSettlement(t), Publish(t)],
                  At(Finish(s, t), Commit(s.ledger, Decision(s.runners[t]))))
  {
    var s1 := Exec(s, max, CommitSettlement(t));
    assert s1.outbox == [EventOf(Decision(s.runners[t]))];
    DeliverOnly(s1, EventOf(Decision(s.runners[t])));
    TwoSteps(s, max, CommitSettlement(t), Publish(t));
    assert s1.runners - {t} == s.runners - {t};
  }

  lemma GotoThenFinish(s: Sys, t: nat, phase: Phase)
    requires t in s.runners
    ensures Finish(Goto(s, t, phase), t) == Finish(s, t)
  {
    assert s.runners[t := s.runners[t].(phase := phase)] - {t} == s.runners - {t};
  }

  /** Everything that commits beside the runner is an ingestion or an admin operation. */
  predicate Externals(w: World, max: nat) {
    && |w.external| == max + 1 && |w.during| == max + 1
    && forall j :: 0 <= j <= max ==> External(w.external[j]) && External(w.during[j])
  }

  /** The machine at the end of a runner's code that looks for its stop from read `i` on. */
  function EndFrom(start: State, s: Sys, t: nat, w: World, max: nat, i: nat): Sys
    requires Suits(w, max) && i <= max && t in s.runners
  {
    var id := s.runners[t].purchase;
    At(Finish(s, t), Outcome(start, w, id, max, StopFrom(start, w, id, max, i)))
  }

  /** Where a runner that has read its purchase pending at read `i` is suspended. */
  function CheckedAt(max: nat, i: nat): Phase {
    if i < max then Verifying(i + 1) else ForceRejecting
  }

  lemma {:induction false} NextAttempt(start: State, s: Sys, t: nat, w: World, max: nat, i: nat)
    returns (steps: seq<Step>)
    requires Suits(w, max) && i < max && Externals(w, max)
    requires t in s.runners && s.runners[t].phase == if i + 1 < max then Sleeping(i + 1) else LastReading
    requires Tidy(s) && s.ledger == ReadyAt(start, w, i)
    ensures Leads(s, max, steps, EndFrom(start, s, t, w, max, i + 1))
    decreases max - i - 1, 4
  {
    if i + 1 < max {
      var s1 := Exec(s, max, Wake(t));
      GotoThenFinish(s, t, s1.runners[t].phase);
      var rest := RunnerFrom(start, s1, t, w, max, i + 1);
      LeadsStep(s, max, Wake(t), rest, EndFrom(start, s, t, w, max, i + 1));
      steps := [Wake(t)] + rest;
    } else {
      steps := RunnerFrom(start, s, t, w, max, i + 1);
    }
  }

  /** The runner's steps once others have done what they do between its read number `i` and its verdict. */
  lemma {:induction false} FromReady(start: State, s: Sys, t: nat, w: World, max: nat, i: nat)
    returns (steps: seq<Step>)
    requires Suits(w, max) && i <= max && Externals(w, max)
    requires t in s.runners && s.runners[t].phase == CheckedAt(max, i) && PendingAt(start, w, s.runners[t].purchase, i)
    requires Tidy(s) && s.ledger == ReadyAt(start, w, i)
    ensures Leads(s, max, steps, EndFrom(start, s, t, w, max, i))
    decreases max - i, 0
  {
    ReadyKeepsRow(start, w, s.runners[t].purchase, i);
    if i == max {
      SettleAndEnd(s, max, t);
      steps := [CommitSettlement(t), Publish(t)];
    } else {
      var s1 := Exec(s, max, Verify(t, w.verdicts[i]));
      GotoThenFinish(s, t, s1.runners[t].phase);
      var rest;
      if w.verdicts[i] == SoftFail {
        rest := NextAttempt(start, s1, t, w, max, i);
      } else {
        SettleAndEnd(s1, max, t);
        rest := [CommitSettlement(t), Publish(t)];
      }
      LeadsStep(s, max, Verify(t, w.verdicts[i]), rest, EndFrom(start, s, t, w, max, i));
      steps := [Verify(t, w.verdicts[i])] + rest;
    }
  }

  lemma ReadChecks(s: Sys, t: nat, max: nat, i: nat)
    requires t in s.runners && s.runners[t].phase == ReadPhase(max, i) && i <= max
    requires PendingIn(s.ledger.books, s.runners[t].purchase)
    ensures Enabled(s, Read(t)) && Exec(s, max, Read(t)) == Goto(s, t, CheckedAt(max, i))
  {
  }

  lemma {:induction false} FromCheck(start: State, s: Sys, t: nat, w: World, max: nat, i: nat)
    returns (steps: seq<Step>)
    requires Suits(w, max) && i <= max && Externals(w, max)
    requires t in s.runners && s.runners[t].phase == CheckedAt(max, i) && PendingAt(start, w, s.runners[t].purchase, i)
    requires Tidy(s) && s.ledger == StateAt(start, w, i)
    ensures Leads(s, max, steps, EndFrom(start, s, t, w, max, i))
    decreases max - i, 1
  {
    var ready := At(s, ReadyAt(start, w, i));
    var during := ExternalRuns(s, max, w.during[i]);
    var rest := FromReady(start, ready, t, w, max, i);
    LeadsAppend(s, max, during, ready, rest, EndFrom(start, s, t, w, max, i));
    steps := during + rest;
  }

  lemma {:induction false} FromRead(start: State, s: Sys, t: nat, w: World, max: nat, i: nat)
    returns (steps: seq<Step>)
    requires Suits(w, max) && i <= max && Externals(w, max)
    requires t in s.runners && s.runners[t].phase == ReadPhase(max, i)
    requires Tidy(s) && s.ledger == StateAt(start, w, i)
    ensures Leads(s, max, steps, EndFrom(start, s, t, w, max, i))
    decreases max - i, 2
  {
    if !PendingIn(s.ledger.books, s.runners[t].purchase) {
      OneStep(s, max, Read(t));
      return [Read(t)];
    }
    var s1 := Goto(s, t, CheckedAt(max, i));
    ReadChecks(s, t, max, i);
    GotoThenFinish(s, t, CheckedAt(max, i));
    var rest := FromCheck(start, s1, t, w, max, i);
    LeadsStep(s, max, Read(t), rest, EndFrom(start, s, t, w, max, i));
    steps := [Read(t)] + rest;
  }

  /** The runner's steps from its read number `i` on, with the external operations before each read and verdict. */
  lemma {:induction false} RunnerFrom(start: State, s: Sys, t: nat, w: World, max: nat, i: nat)
    returns (steps: seq<Step>)
    requires Suits(w, max) && i <= max && Externals(w, max)
    requires t in s.runners && s.runners[t].phase == ReadPhase(max, i)
    requires Tidy(s) && s.ledger == if i == 0 then start else ReadyAt(start, w, i - 1)
    ensures Leads(s, max, steps, EndFrom(start, s, t, w, max, i))
    decreases max - i, 3
  {
    var now := At(s, StateAt(start, w, i));
    var before := ExternalRuns(s, max, w.external[i]);
    var after := FromRead(start, now, t, w, max, i);
    LeadsAppend(s, max, before, now, after, EndFrom(start, s, t, w, max, i));
    steps := before + after;
  }

  /**
   * A freshly spawned task, with whole transactions of others before its reads and between its reads and its
   * commit, can run through the machine to exactly the outcome that its code has, and then has no runner and no
   * tracker entry.
   */
  lemma RunnerRefinesCode(s: Sys, t: nat, w: World, max: nat) returns (steps: seq<Step>)
    requires Suits(w, max) && Externals(w, max)
    requires Tidy(s) && t in s.runners && s.runners[t].phase == FirstPhase(max)
    ensures var id := s.runners[t].purchase;
            var k := StopFrom(s.ledger, w, id, max, 0);
            && IsRun(s, max, steps)
            && RunSteps(s, max, steps).ledger == Outcome(s.ledger, w, id, max, k) && Tidy(RunSteps(s, max, steps))
            && RunSteps(s, max, steps).tracker == s.tracker - {id}
            && RunSteps(s, max, steps).runners == s.runners - {t}
  {
    steps := RunnerFrom(s.ledger, s, t, w, max, 0);
  }

  // ----- a tick

  /** A tick that nothing cuts into leaves the tracker as its code does. */
  lemma TickRefinesCode(s: Sys, max: nat, pending: seq<Candidate>) returns (steps: seq<Step>)
    requires s.dispatcher.Idle? && IsSnapshot(s.ledger.books, pending)
    ensures var es := EligibleOf(s.flags, Untracked(s.tracker, pending));
            && IsRun(s, max, steps)
            && RunSteps(s, max, steps) == s.(
                 tracker := AddAll(s.tracker, es, |es|, |s.spawned|),
                 runners := SpawnAll(s.runners, es, |es|, |s.spawned|, max),
                 spawned := s.spawned + Ids(es))
  {
    var untracked := Untracked(s.tracker, pending);
    var es := EligibleOf(s.flags, untracked);
    var end := s.(tracker := AddAll(s.tracker, es, |es|, |s.spawned|),
                  runners := SpawnAll(s.runners, es, |es|, |s.spawned|, max),
                  spawned := s.spawned + Ids(es));
    assert es == [] ==> s.spawned + Ids(es) == s.spawned;
    if pending == [] {
      OneStep(s, max, Snapshot(pending));
      steps := [Snapshot(pending)];
    } else if untracked == [] {
      TwoSteps(s, max, Snapshot(pending), FilterTracked);
      steps := [Snapshot(pending), FilterTracked];
    } else {
      var s2 := s.(dispatcher := Filtered(untracked));
      TwoSteps(s, max, Snapshot(pending), FilterTracked);
      TwoSteps(s2, max, EvaluateFlags, SpawnEligible);
      LeadsAppend(s, max, [Snapshot(pending), FilterTracked], s2, [EvaluateFlags, SpawnEligible], end);
      steps := [Snapshot(pending), FilterTracked] + [EvaluateFlags, SpawnEligible];
    }
  }
}
