/** The job when the scheduler runs several loops of the one task: their ticks share a tracker and interleave. */
module Overlap {
  import opened Wrappers
  import opened Ledger
  import opened LedgerLaws
  import opened Eligibility
  import opened Protocol
  import opened ProtocolLaws
  import opened SafeRuns
  import Scheduler

  /** `ticks[k]` is where loop k is suspended; the dispatcher of `sys` is not used. */
  datatype Loops = Loops(sys: Sys, ticks: seq<Dispatcher>)

  /** A step of the machine; a step of a tick is taken by one of the loops. */
  datatype Turn = Turn(loop: nat, step: Step)

  predicate OfTick(step: Step) {
    step.Snapshot? || step.FilterTracked? || step.EvaluateFlags? || step.SpawnEligible? || step.FailTick?
  }

  /** The machine as one of the loops sees it. */
  function View(m: Loops, k: nat): Sys
    requires k < |m.ticks|
  {
    m.sys.(dispatcher := m.ticks[k])
  }

  ghost predicate Possible(m: Loops, turn: Turn) {
    if OfTick(turn.step) then turn.loop < |m.ticks| && Enabled(View(m, turn.loop), turn.step)
    else Enabled(m.sys, turn.step)
  }

  function Take(m: Loops, max: nat, turn: Turn): Loops
    requires Possible(m, turn)
  {
    if OfTick(turn.step) then
      var s' := Exec(View(m, turn.loop), max, turn.step);
      Loops(s'.(dispatcher := m.sys.dispatcher), m.ticks[turn.loop := s'.dispatcher])
    else Loops(Exec(m.sys, max, turn.step), m.ticks)
  }

  ghost predicate AreTurns(m: Loops, max: nat, turns: seq<Turn>)
    decreases |turns|
  {
    turns == [] || (Possible(m, turns[0]) && AreTurns(Take(m, max, turns[0]), max, turns[1..]))
  }

  ghost function TakeAll(m: Loops, max: nat, turns: seq<Turn>): Loops
    requires AreTurns(m, max, turns)
    decreases |turns|
  {
    if turns == [] then m else TakeAll(Take(m, max, turns[0]), max, turns[1..])
  }

  function Idling(n: nat): seq<Dispatcher> {
    seq(n, i => Idle)
  }

  /** `n` loops at startup. */
  function Started(n: nat): Loops {
    Loops(STARTUP, Idling(n))
  }

  // ----- one loop

  function StepsIn(turns: seq<Turn>): seq<Step> {
    seq(|turns|, i requires 0 <= i < |turns| => turns[i].step)
  }

  lemma TurnIsStep(m: Loops, max: nat, turn: Turn)
    requires |m.ticks| == 1 && Possible(m, turn)
    ensures Enabled(View(m, 0), turn.step)
    ensures |Take(m, max, turn).ticks| == 1 && View(Take(m, max, turn), 0) == Exec(View(m, 0), max, turn.step)
  {
  }

  /** With a single loop this is the machine of the job, and all of that machine's results hold. */
  lemma {:induction false} OneLoopIsTheMachine(m: Loops, max: nat, turns: seq<Turn>)
    requires |m.ticks| == 1 && AreTurns(m, max, turns)
    ensures IsRun(View(m, 0), max, StepsIn(turns))
    ensures var m' := TakeAll(m, max, turns);
            |m'.ticks| == 1 && View(m', 0) == RunSteps(View(m, 0), max, StepsIn(turns))
    decreases |turns|
  {
    if turns == [] {
    } else {
      TurnIsStep(m, max, turns[0]);
      OneLoopIsTheMachine(Take(m, max, turns[0]), max, turns[1..]);
      assert StepsIn(turns)[1..] == StepsIn(turns[1..]);
    }
  }

  lemma {:induction false} NoLoopIsTheMachine(m: Loops, max: nat, turns: seq<Turn>)
    requires m.ticks == [] && AreTurns(m, max, turns)
    ensures IsRun(m.sys, max, StepsIn(turns)) && TakeAll(m, max, turns).sys == RunSteps(m.sys, max, StepsIn(turns))
    decreases |turns|
  {
    if turns == [] {
    } else {
      NoLoopIsTheMachine(Take(m, max, turns[0]), max, turns[1..]);
      assert StepsIn(turns)[1..] == StepsIn(turns[1..]);
    }
  }

  /** No turn is an admin's operation. */
  ghost predicate JobOnly(turns: seq<Turn>) {
    forall turn :: turn in turns && turn.step.Operation? ==> turn.step.op.Ingest?
  }

  lemma JobOnlyRunKeepsLaws(max: nat, steps: seq<Step>)
    requires IsRun(STARTUP, max, steps) && forall step :: step in steps && step.Operation? ==> step.op.Ingest?
    ensures TrackerLaw(RunSteps(STARTUP, max, steps)) && Consistent(RunSteps(STARTUP, max, steps).ledger)
  {
    JobOnlyRunIsSafe(STARTUP, max, steps);
    StartupRunKeepsLedger(max, steps);
    EveryRunKeepsJobLaw(max, steps);
  }

  lemma JobOnlySteps(turns: seq<Turn>)
    requires JobOnly(turns)
    ensures forall step :: step in StepsIn(turns) && step.Operation? ==> step.op.Ingest?
  {
    assert forall i :: 0 <= i < |turns| ==> turns[i] in turns;
  }

  /** With at most one loop the runs are those of the machine, as far as runners and ledger go. */
  lemma StartedViews()
    ensures |Started(1).ticks| == 1 && View(Started(1), 0) == STARTUP
    ensures Started(0).ticks == [] && Started(0).sys == STARTUP
  {
  }

  lemma AtMostOneLoop(n: nat, max: nat, turns: seq<Turn>)
    requires n <= 1 && AreTurns(Started(n), max, turns)
    ensures var steps, s := StepsIn(turns), TakeAll(Started(n), max, turns).sys;
            && IsRun(STARTUP, max, steps)
            && s.(dispatcher := Idle) == RunSteps(STARTUP, max, steps).(dispatcher := Idle)
  {
    StartedViews();
    if n == 0 {
      NoLoopIsTheMachine(Started(0), max, turns);
    } else {
      OneLoopIsTheMachine(Started(1), max, turns);
    }
  }

  lemma LawsOfRunners(s: Sys, s': Sys)
    requires s.(dispatcher := Idle) == s'.(dispatcher := Idle) && TrackerLaw(s)
    ensures TrackerLaw(s') && s'.ledger == s.ledger
  {
    assert s'.tracker == s.(dispatcher := Idle).tracker && s'.runners == s.(dispatcher := Idle).runners;
    assert s'.spawned == s.(dispatcher := Idle).spawned && s'.ledger == s.(dispatcher := Idle).ledger;
  }

  /** At most one loop: without admin operations, no purchase has two runners and the ledger keeps its laws. */
  lemma OneLoopKeepsLaws(n: nat, max: nat, turns: seq<Turn>)
    requires n <= 1 && AreTurns(Started(n), max, turns) && JobOnly(turns)
    ensures var s := TakeAll(Started(n), max, turns).sys;
            TrackerLaw(s) && Consistent(s.ledger)
  {
    AtMostOneLoop(n, max, turns);
    JobOnlySteps(turns);
    JobOnlyRunKeepsLaws(max, StepsIn(turns));
    LawsOfRunners(RunSteps(STARTUP, max, StepsIn(turns)), TakeAll(Started(n), max, turns).sys);
  }

  // ----- two loops

  ghost predicate Reaches(m: Loops, max: nat, turns: seq<Turn>, m': Loops) {
    AreTurns(m, max, turns) && TakeAll(m, max, turns) == m'
  }

  lemma ReachesStep(m: Loops, max: nat, turn: Turn, rest: seq<Turn>, m': Loops)
    requires Possible(m, turn) && Reaches(Take(m, max, turn), max, rest, m')
    ensures Reaches(m, max, [turn] + rest, m')
  {
    assert ([turn] + rest)[1..] == rest;
  }

  lemma TwoTurns(m: Loops, max: nat, turn: Turn, m1: Loops, turn': Turn, m2: Loops)
    requires Possible(m, turn) && Take(m, max, turn) == m1 && Possible(m1, turn') && Take(m1, max, turn') == m2
    ensures Reaches(m, max, [turn] + [turn'], m2)
  {
    ReachesStep(m1, max, turn', [], m2);
    assert [turn'] + [] == [turn'];
    ReachesStep(m, max, turn, [turn'], m2);
  }

  lemma FirstOfAppend(xs: seq<Turn>, ys: seq<Turn>)
    requires xs != []
    ensures xs + ys == [xs[0]] + (xs[1..] + ys)
  {
  }

  lemma {:induction false} ReachesAppend(m: Loops, max: nat, xs: seq<Turn>, m1: Loops, ys: seq<Turn>, m2: Loops)
    requires Reaches(m, max, xs, m1) && Reaches(m1, max, ys, m2)
    ensures Reaches(m, max, xs + ys, m2)
    decreases |xs|
  {
    if xs == [] {
      assert xs + ys == ys;
    } else {
      FirstOfAppend(xs, ys);
      ReachesAppend(Take(m, max, xs[0]), max, xs[1..], m1, ys, m2);
      ReachesStep(m, max, xs[0], xs[1..] + ys, m2);
    }
  }

  /** One purchase has been ingested, and of at least two loops the first two are at `d` and `d'`. */
  function Pair(id: Uuid, req: Request, d: Dispatcher, d': Dispatcher, n: nat): Loops {
    Loops(Ticking(id, req, Idle), [d, d'] + Idling(n))
  }

  lemma FirstLoopMoves(
    id: Uuid, req: Request, d: Dispatcher, d': Dispatcher, n: nat, max: nat, step: Step, e: Dispatcher)
    requires OfTick(step) && Enabled(Ticking(id, req, d), step)
    requires Exec(Ticking(id, req, d), max, step) == Ticking(id, req, e)
    ensures Possible(Pair(id, req, d, d', n), Turn(0, step))
    ensures Take(Pair(id, req, d, d', n), max, Turn(0, step)) == Pair(id, req, e, d', n)
  {
    assert View(Pair(id, req, d, d', n), 0) == Ticking(id, req, d);
    assert ([d, d'] + Idling(n))[0 := e] == [e, d'] + Idling(n);
  }

  lemma SecondLoopMoves(
    id: Uuid, req: Request, d: Dispatcher, d': Dispatcher, n: nat, max: nat, step: Step, e: Dispatcher)
    requires OfTick(step) && Enabled(Ticking(id, req, d'), step)
    requires Exec(Ticking(id, req, d'), max, step) == Ticking(id, req, e)
    ensures Possible(Pair(id, req, d, d', n), Turn(1, step))
    ensures Take(Pair(id, req, d, d', n), max, Turn(1, step)) == Pair(id, req, d, e, n)
  {
    assert View(Pair(id, req, d, d', n), 1) == Ticking(id, req, d');
    assert ([d, d'] + Idling(n))[1 := e] == [d, e] + Idling(n);
  }

  /** Both loops take the same step of their ticks. */
  lemma BothLoopsMove(id: Uuid, req: Request, d: Dispatcher, n: nat, max: nat, step: Step, e: Dispatcher)
    requires OfTick(step) && Enabled(Ticking(id, req, d), step)
    requires Exec(Ticking(id, req, d), max, step) == Ticking(id, req, e)
    ensures Reaches(Pair(id, req, d, d, n), max, [Turn(0, step)] + [Turn(1, step)], Pair(id, req, e, e, n))
  {
    FirstLoopMoves(id, req, d, d, n, max, step, e);
    SecondLoopMoves(id, req, e, d, n, max, step, e);
    TwoTurns(Pair(id, req, d, d, n), max, Turn(0, step), Pair(id, req, e, d, n), Turn(1, step), Pair(id, req, e, e, n));
  }

  function Both(step: Step): seq<Turn> {
    [Turn(0, step)] + [Turn(1, step)]
  }

  /** Both loops have seen the purchase pending and untracked. */
  function UpToSpawning(id: Uuid, req: Request): seq<Turn> {
    [Turn(0, Operation(Ingest(id, req)))] + (Both(Snapshot([CandidateOf(id, NewPurchase(req))]))
      + (Both(FilterTracked) + Both(EvaluateFlags)))
  }

  lemma BothSnapshot(id: Uuid, req: Request, n: nat, max: nat, c: Candidate)
    requires Guard(INITIAL.books, Ingest(id, req)).None? && c == CandidateOf(id, NewPurchase(req))
    ensures Reaches(Pair(id, req, Idle, Idle, n), max, Both(Snapshot([c])),
                    Pair(id, req, Snapshotted([c]), Snapshotted([c]), n))
  {
    assert Apply(INITIAL, Ingest(id, req)).books.purchases == map[id := NewPurchase(req)];
    BothLoopsMove(id, req, Idle, n, max, Snapshot([c]), Snapshotted([c]));
  }

  lemma BothFilter(id: Uuid, req: Request, n: nat, max: nat, c: Candidate)
    ensures Reaches(Pair(id, req, Snapshotted([c]), Snapshotted([c]), n), max, Both(FilterTracked),
                    Pair(id, req, Filtered([c]), Filtered([c]), n))
  {
    LoneCandidate(c);
    BothLoopsMove(id, req, Snapshotted([c]), n, max, FilterTracked, Filtered([c]));
  }

  lemma BothEvaluate(id: Uuid, req: Request, n: nat, max: nat, c: Candidate)
    ensures Reaches(Pair(id, req, Filtered([c]), Filtered([c]), n), max, Both(EvaluateFlags),
                    Pair(id, req, Flagged([c]), Flagged([c]), n))
  {
    LoneCandidate(c);
    BothLoopsMove(id, req, Filtered([c]), n, max, EvaluateFlags, Flagged([c]));
  }

  lemma StartedIngests(id: Uuid, req: Request, n: nat, max: nat)
    requires Guard(INITIAL.books, Ingest(id, req)).None?
    ensures Possible(Started(n + 2), Turn(0, Operation(Ingest(id, req))))
    ensures Take(Started(n + 2), max, Turn(0, Operation(Ingest(id, req)))) == Pair(id, req, Idle, Idle, n)
  {
    assert Exec(STARTUP, max, Operation(Ingest(id, req))) == Ticking(id, req, Idle);
    assert Idling(n + 2) == [Idle, Idle] + Idling(n);
  }

  lemma BothReachSpawning(id: Uuid, req: Request, n: nat, max: nat)
    requires Guard(INITIAL.books, Ingest(id, req)).None?
    ensures var c := CandidateOf(id, NewPurchase(req));
            Reaches(Started(n + 2), max, UpToSpawning(id, req), Pair(id, req, Flagged([c]), Flagged([c]), n))
  {
    var c := CandidateOf(id, NewPurchase(req));
    var end := Pair(id, req, Flagged([c]), Flagged([c]), n);
    BothSnapshot(id, req, n, max, c);
    BothFilter(id, req, n, max, c);
    BothEvaluate(id, req, n, max, c);
    ReachesAppend(Pair(id, req, Snapshotted([c]), Snapshotted([c]), n), max, Both(FilterTracked),
      Pair(id, req, Filtered([c]), Filtered([c]), n), Both(EvaluateFlags), end);
    ReachesAppend(Pair(id, req, Idle, Idle, n), max, Both(Snapshot([c])),
      Pair(id, req, Snapshotted([c]), Snapshotted([c]), n), Both(FilterTracked) + Both(EvaluateFlags), end);
    StartedIngests(id, req, n, max);
    ReachesStep(Started(n + 2), max, Turn(0, Operation(Ingest(id, req))),
      Both(Snapshot([c])) + (Both(FilterTracked) + Both(EvaluateFlags)), end);
  }

  /** The purchase has two live runners, tasks 0 and 1, and the tracker knows the second only. */
  function Twice(id: Uuid, l: State, outbox: seq<Event>, p: Phase, p': Phase, n: nat): Loops {
    Loops(Sys(l, [], outbox, [], map[id := 1], map[0 := Runner(id, p), 1 := Runner(id, p')], Idle, [id, id], {}),
          Idling(n + 2))
  }

  lemma SecondSpawns(id: Uuid, l: State, p: Phase, max: nat, c: Candidate)
    requires c.id == id
    ensures Exec(Sys(l, [], [], [], map[id := 0], map[0 := Runner(id, p)], Flagged([c]), [id], {}), max, SpawnEligible)
         == Sys(l, [], [], [], map[id := 1], map[0 := Runner(id, p), 1 := Runner(id, FirstPhase(max))],
                Idle, [id, id], {})
  {
    assert AddAll(map[id := 0], [c], 0, 1) == map[id := 0];
    assert SpawnAll(map[0 := Runner(id, p)], [c], 0, 1, max) == map[0 := Runner(id, p)];
    assert [id] + Ids([c]) == [id, id];
  }

  lemma BothSpawn(id: Uuid, req: Request, n: nat, max: nat)
    requires Guard(INITIAL.books, Ingest(id, req)).None?
    ensures var c := CandidateOf(id, NewPurchase(req));
            Reaches(Pair(id, req, Flagged([c]), Flagged([c]), n), max, Both(SpawnEligible),
                    Twice(id, Apply(INITIAL, Ingest(id, req)), [], FirstPhase(max), FirstPhase(max), n))
  {
    var c := CandidateOf(id, NewPurchase(req));
    var m := Pair(id, req, Flagged([c]), Flagged([c]), n);
    var end := Twice(id, Apply(INITIAL, Ingest(id, req)), [], FirstPhase(max), FirstPhase(max), n);
    var m1 := Loops(Running(id, req, FirstPhase(max)), [Idle, Flagged([c])] + Idling(n));
    assert View(m, 0) == Ticking(id, req, Flagged([c]));
    TickSpawnsRunner(id, req, max);
    assert m.ticks[0 := Idle] == m1.ticks;
    SecondSpawns(id, Apply(INITIAL, Ingest(id, req)), FirstPhase(max), max, c);
    assert m1.ticks[1 := Idle] == Idling(n + 2);
    TwoTurns(m, max, Turn(0, SpawnEligible), m1, Turn(1, SpawnEligible), end);
  }

  lemma FirstRunnerMoves(m: Loops, max: nat, id: Uuid, l: State, p: Phase, p': Phase, n: nat, step: Step, q: Phase)
    requires m == Twice(id, l, [], p, p', n) && !OfTick(step)
    requires Enabled(m.sys, step) && Exec(m.sys, max, step) == Goto(m.sys, 0, q)
    ensures Possible(m, Turn(0, step)) && Take(m, max, Turn(0, step)) == Twice(id, l, [], q, p', n)
  {
  }

  lemma SecondRunnerMoves(m: Loops, max: nat, id: Uuid, l: State, p: Phase, p': Phase, n: nat, step: Step, q: Phase)
    requires m == Twice(id, l, [], p, p', n) && !OfTick(step)
    requires Enabled(m.sys, step) && Exec(m.sys, max, step) == Goto(m.sys, 1, q)
    ensures Possible(m, Turn(1, step)) && Take(m, max, Turn(1, step)) == Twice(id, l, [], p, q, n)
  {
  }

  /** Both runners read the purchase. */
  function Reads(): seq<Turn> {
    [Turn(0, Read(0))] + [Turn(1, Read(1))]
  }

  /** Both runners are told to approve it. */
  function Approvals(): seq<Turn> {
    [Turn(0, Verify(0, Approve))] + [Turn(1, Verify(1, Approve))]
  }

  /** Where a runner that has read its purchase pending at its first read is suspended. */
  function CheckedPhase(max: nat): Phase {
    if max == 0 then ForceRejecting else Verifying(1)
  }

  lemma BothRead(id: Uuid, l: State, n: nat, max: nat)
    requires PendingIn(l.books, id)
    ensures Reaches(Twice(id, l, [], FirstPhase(max), FirstPhase(max), n), max, Reads(),
                    Twice(id, l, [], CheckedPhase(max), CheckedPhase(max), n))
  {
    var p, v := FirstPhase(max), CheckedPhase(max);
    var m0, m1, m2 := Twice(id, l, [], p, p, n), Twice(id, l, [], v, p, n), Twice(id, l, [], v, v, n);
    FirstRunnerMoves(m0, max, id, l, p, p, n, Read(0), v);
    SecondRunnerMoves(m1, max, id, l, v, p, n, Read(1), v);
    TwoTurns(m0, max, Turn(0, Read(0)), m1, Turn(1, Read(1)), m2);
  }

  lemma BothApproved(id: Uuid, l: State, n: nat, max: nat)
    ensures Reaches(Twice(id, l, [], Verifying(1), Verifying(1), n), max, Approvals(),
                    Twice(id, l, [], Settling(true), Settling(true), n))
  {
    var v, a := Verifying(1), Settling(true);
    var m0, m1, m2 := Twice(id, l, [], v, v, n), Twice(id, l, [], a, v, n), Twice(id, l, [], a, a, n);
    FirstRunnerMoves(m0, max, id, l, v, v, n, Verify(0, Approve), a);
    SecondRunnerMoves(m1, max, id, l, a, v, n, Verify(1, Approve), a);
    TwoTurns(m0, max, Turn(0, Verify(0, Approve)), m1, Turn(1, Verify(1, Approve)), m2);
  }

  /** Where a runner is suspended before it commits: forced to reject when there are no attempts. */
  function DecidedPhase(max: nat): Phase {
    if max == 0 then ForceRejecting else Settling(true)
  }

  function UpToCommits(max: nat): seq<Turn> {
    if max == 0 then Reads() else Reads() + Approvals()
  }

  lemma BothReachCommits(id: Uuid, l: State, n: nat, max: nat)
    requires PendingIn(l.books, id)
    ensures Reaches(Twice(id, l, [], FirstPhase(max), FirstPhase(max), n), max, UpToCommits(max),
                    Twice(id, l, [], DecidedPhase(max), DecidedPhase(max), n))
  {
    BothRead(id, l, n, max);
    if max > 0 {
      BothApproved(id, l, n, max);
      ReachesAppend(Twice(id, l, [], FirstPhase(max), FirstPhase(max), n), max, Reads(),
        Twice(id, l, [], Verifying(1), Verifying(1), n), Approvals(),
        Twice(id, l, [], Settling(true), Settling(true), n));
    }
  }

  // ----- two settlements of one purchase

  function DecidedOp(id: Uuid, max: nat): Op {
    Decision(Runner(id, DecidedPhase(max)))
  }

  lemma FirstCommits(id: Uuid, l: State, n: nat, max: nat)
    requires PendingIn(l.books, id)
    ensures var m, op := Twice(id, l, [], DecidedPhase(max), DecidedPhase(max), n), DecidedOp(id, max);
            && Possible(m, Turn(0, CommitSettlement(0)))
            && Take(m, max, Turn(0, CommitSettlement(0)))
               == Twice(id, Commit(l, op), [EventOf(op)], Publishing(EventOf(op)), DecidedPhase(max), n)
  {
  }

  /** The row that the second runner still believes to be pending. */
  lemma SettledRow(l: State, op: Op)
    requires Consistent(l) && Settles(op) && PendingIn(l.books, op.id)
    ensures var l' := Commit(l, op);
            && Consistent(l') && op.id in l'.books.purchases && l'.books.purchases[op.id].status != Pending
            && l'.books.purchases[op.id].cashback == l.books.purchases[op.id].cashback
  {
    CommitKeepsConsistent(l, op);
    SettlementRows(l, op);
  }

  lemma SecondBreaks(id: Uuid, l: State, out: seq<Event>, p: Phase, n: nat, max: nat)
    requires Consistent(l) && id in l.books.purchases
    requires l.books.purchases[id].status != Pending && l.books.purchases[id].cashback > 0
    ensures var m := Twice(id, l, out, p, DecidedPhase(max), n);
            && Possible(m, Turn(1, CommitSettlement(1)))
            && !LedgerLaw(Take(m, max, Turn(1, CommitSettlement(1))).sys.ledger)
  {
    SettlementKeepsLawsIff(Twice(id, l, out, p, DecidedPhase(max), n).sys, max, 1);
  }

  function Commits(): seq<Turn> {
    [Turn(0, CommitSettlement(0))] + [Turn(1, CommitSettlement(1))]
  }

  /** The second of two settlements of one purchase breaks the ledger law. */
  lemma SecondSettlementBreaks(id: Uuid, l: State, n: nat, max: nat)
    requires Consistent(l) && PendingIn(l.books, id) && l.books.purchases[id].cashback > 0
    ensures var m := Twice(id, l, [], DecidedPhase(max), DecidedPhase(max), n);
            AreTurns(m, max, Commits()) && !LedgerLaw(TakeAll(m, max, Commits()).sys.ledger)
  {
    var m, op := Twice(id, l, [], DecidedPhase(max), DecidedPhase(max), n), DecidedOp(id, max);
    var e := EventOf(op);
    var m1 := Twice(id, Commit(l, op), [e], Publishing(e), DecidedPhase(max), n);
    FirstCommits(id, l, n, max);
    SettledRow(l, op);
    SecondBreaks(id, Commit(l, op), [e], Publishing(e), n, max);
    TwoTurns(m, max, Turn(0, CommitSettlement(0)), m1, Turn(1, CommitSettlement(1)),
      Take(m1, max, Turn(1, CommitSettlement(1))));
  }

  /** From startup to two live runners of one purchase, without any admin operation. */
  function UpToTwice(id: Uuid, req: Request): seq<Turn> {
    UpToSpawning(id, req) + Both(SpawnEligible)
  }

  function UpToTwoSettlements(id: Uuid, req: Request, max: nat): seq<Turn> {
    UpToTwice(id, req) + (UpToCommits(max) + Commits())
  }

  lemma TwiceIsReachable(id: Uuid, req: Request, n: nat, max: nat)
    requires Guard(INITIAL.books, Ingest(id, req)).None?
    ensures var m := Twice(id, Apply(INITIAL, Ingest(id, req)), [], FirstPhase(max), FirstPhase(max), n);
            Reaches(Started(n + 2), max, UpToTwice(id, req), m) && !TrackerLaw(m.sys)
  {
    var c := CandidateOf(id, NewPurchase(req));
    var m := Twice(id, Apply(INITIAL, Ingest(id, req)), [], FirstPhase(max), FirstPhase(max), n);
    BothReachSpawning(id, req, n, max);
    BothSpawn(id, req, n, max);
    ReachesAppend(Started(n + 2), max, UpToSpawning(id, req), Pair(id, req, Flagged([c]), Flagged([c]), n),
      Both(SpawnEligible), m);
    assert 0 in m.sys.runners && m.sys.tracker[m.sys.runners[0].purchase] != 0;
  }

  lemma BothSettle(id: Uuid, l: State, n: nat, max: nat) returns (m: Loops)
    requires Consistent(l) && PendingIn(l.books, id) && l.books.purchases[id].cashback > 0
    ensures Reaches(Twice(id, l, [], FirstPhase(max), FirstPhase(max), n), max, UpToCommits(max) + Commits(), m)
    ensures !LedgerLaw(m.sys.ledger)
  {
    var m2 := Twice(id, l, [], DecidedPhase(max), DecidedPhase(max), n);
    BothReachCommits(id, l, n, max);
    SecondSettlementBreaks(id, l, n, max);
    m := TakeAll(m2, max, Commits());
    ReachesAppend(Twice(id, l, [], FirstPhase(max), FirstPhase(max), n), max, UpToCommits(max), m2, Commits(), m);
  }

  lemma JobOnlyAppend(xs: seq<Turn>, ys: seq<Turn>)
    requires JobOnly(xs) && JobOnly(ys)
    ensures JobOnly(xs + ys)
  {
  }

  lemma TwiceIsJobOnly(id: Uuid, req: Request, max: nat)
    ensures JobOnly(UpToTwice(id, req)) && JobOnly(UpToTwoSettlements(id, req, max))
  {
    var c := CandidateOf(id, NewPurchase(req));
    JobOnlyAppend(Both(FilterTracked), Both(EvaluateFlags));
    JobOnlyAppend(Both(Snapshot([c])), Both(FilterTracked) + Both(EvaluateFlags));
    JobOnlyAppend([Turn(0, Operation(Ingest(id, req)))],
      Both(Snapshot([c])) + (Both(FilterTracked) + Both(EvaluateFlags)));
    JobOnlyAppend(UpToSpawning(id, req), Both(SpawnEligible));
    JobOnlyAppend(Reads(), Approvals());
    JobOnlyAppend(UpToCommits(max), Commits());
    JobOnlyAppend(UpToTwice(id, req), UpToCommits(max) + Commits());
  }

  lemma IngestedIsPending(id: Uuid, req: Request)
    requires Guard(INITIAL.books, Ingest(id, req)).None?
    ensures var l := Apply(INITIAL, Ingest(id, req));
            Consistent(l) && PendingIn(l.books, id) && l.books.purchases[id].cashback == CashbackOf(req)
  {
    InitialIsConsistent();
    CommitKeepsConsistent(INITIAL, Ingest(id, req));
  }

  /** Two loops settle a purchase twice, which breaks the ledger law although no admin does anything. */
  lemma TwoLoopsBreakLedgerLaw(id: Uuid, req: Request, n: nat, max: nat)
    requires Guard(INITIAL.books, Ingest(id, req)).None? && CashbackOf(req) > 0
    ensures JobOnly(UpToTwoSettlements(id, req, max)) && AreTurns(Started(n + 2), max, UpToTwoSettlements(id, req, max))
    ensures !LedgerLaw(TakeAll(Started(n + 2), max, UpToTwoSettlements(id, req, max)).sys.ledger)
  {
    var l := Apply(INITIAL, Ingest(id, req));
    IngestedIsPending(id, req);
    TwiceIsReachable(id, req, n, max);
    var m := BothSettle(id, l, n, max);
    ReachesAppend(Started(n + 2), max, UpToTwice(id, req), Twice(id, l, [], FirstPhase(max), FirstPhase(max), n),
      UpToCommits(max) + Commits(), m);
    TwiceIsJobOnly(id, req, max);
  }

  // ----- how many loops

  /** With `n` loops, every run without admin operations has one runner per purchase. */
  ghost predicate KeepsTracker(n: nat, max: nat) {
    forall turns :: AreTurns(Started(n), max, turns) && JobOnly(turns) ==>
      TrackerLaw(TakeAll(Started(n), max, turns).sys)
  }

  /** With `n` loops, every run without admin operations keeps the ledger law. */
  ghost predicate KeepsLedger(n: nat, max: nat) {
    forall turns :: AreTurns(Started(n), max, turns) && JobOnly(turns) ==>
      LedgerLaw(TakeAll(Started(n), max, turns).sys.ledger)
  }

  lemma SomeRunBreaksTracker(id: Uuid, req: Request, n: nat, max: nat, turns: seq<Turn>)
    requires Guard(INITIAL.books, Ingest(id, req)).None? && turns == UpToTwice(id, req)
    ensures !KeepsTracker(n + 2, max)
  {
    TwiceIsReachable(id, req, n, max);
    TwiceIsJobOnly(id, req, max);
    assert AreTurns(Started(n + 2), max, turns) && JobOnly(turns);
  }

  lemma SomeRunBreaksLedger(id: Uuid, req: Request, n: nat, max: nat, turns: seq<Turn>)
    requires Guard(INITIAL.books, Ingest(id, req)).None? && CashbackOf(req) > 0
    requires turns == UpToTwoSettlements(id, req, max)
    ensures !KeepsLedger(n + 2, max)
  {
    TwoLoopsBreakLedgerLaw(id, req, n, max);
    assert AreTurns(Started(n + 2), max, turns) && JobOnly(turns);
  }

  /** No run without admin operations gives a purchase two runners exactly when at most one loop runs the job. */
  lemma KeepsTrackerIff(id: Uuid, req: Request, n: nat, max: nat)
    requires Guard(INITIAL.books, Ingest(id, req)).None?
    ensures KeepsTracker(n, max) <==> n <= 1
  {
    if n <= 1 {
      forall turns | AreTurns(Started(n), max, turns) && JobOnly(turns)
        ensures TrackerLaw(TakeAll(Started(n), max, turns).sys)
      {
        OneLoopKeepsLaws(n, max, turns);
      }
    } else {
      SomeRunBreaksTracker(id, req, n - 2, max, UpToTwice(id, req));
    }
  }

  /** No run without admin operations breaks the ledger law exactly when at most one loop runs the job. */
  lemma KeepsLedgerIff(id: Uuid, req: Request, n: nat, max: nat)
    requires Guard(INITIAL.books, Ingest(id, req)).None? && CashbackOf(req) > 0
    ensures KeepsLedger(n, max) <==> n <= 1
  {
    if n <= 1 {
      forall turns | AreTurns(Started(n), max, turns) && JobOnly(turns)
        ensures LedgerLaw(TakeAll(Started(n), max, turns).sys.ledger)
      {
        OneLoopKeepsLaws(n, max, turns);
      }
    } else {
      SomeRunBreaksLedger(id, req, n - 2, max, UpToTwoSettlements(id, req, max));
    }
  }

  /** Nothing refuses a second start: the job keeps its laws exactly when its scheduler was started at most once. */
  lemma StartingTheJobAgain(
    name: Scheduler.Name, r: Scheduler.Registration, times: nat, id: Uuid, req: Request, max: nat)
    requires Guard(INITIAL.books, Ingest(id, req)).None?
    ensures var n := |Scheduler.LoopsOf(Scheduler.StartedTimes(name, r, times), name)|;
            && (KeepsTracker(n, max) <==> times <= 1)
            && (CashbackOf(req) > 0 ==> (KeepsLedger(n, max) <==> times <= 1))
  {
    Scheduler.StartingAgainAddsLoops(name, r, times);
    KeepsTrackerIff(id, req, times, max);
    if CashbackOf(req) > 0 {
      KeepsLedgerIff(id, req, times, max);
    }
  }
}
