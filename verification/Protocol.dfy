/**
 * The verification job as interleaved steps, cut at the awaits: one dispatcher tick at a time, one task per
 * spawned runner, and ingestion, admin operations and flag writes in between.
 */
module Protocol {
  import opened Wrappers
  import opened Ledger
  import Flags
  import opened Eligibility

  datatype Verdict = Approve | Decline | SoftFail

  /** Where a runner is suspended. Attempts count from one. */
  datatype Phase =
    | Reading(attempt: nat)                   // about to read the purchase in a fresh session
    | Verifying(attempt: nat)                 // has seen it pending; the verifier is at work
    | Settling(approve: bool)                 // has a decisive verdict; nothing committed yet
    | Sleeping(attempt: nat)                  // between attempts
    | LastReading                             // attempts exhausted; about to read once more
    | ForceRejecting                          // has seen it pending; rejection not committed yet
    | Publishing(event: Event)                // committed; the event is being handled

  datatype Runner = Runner(purchase: Uuid, phase: Phase)

  /** Where the dispatcher's tick is suspended, with the list it holds. */
  datatype Dispatcher =
    | Idle
    | Snapshotted(pending: seq<Candidate>)
    | Filtered(untracked: seq<Candidate>)
    | Flagged(eligible: seq<Candidate>)
    | Stopped                                 // a tick raised, and the scheduler's loop ended with it

  /**
   * `ledger.log` lists the events of all commits in commit order; of these, `published` are those whose
   * publication has completed, in the order it did, and `outbox` those that are still being published.
   * Tasks are numbered in the order they were spawned; `spawned[t]` is the purchase of task t.
   */
  datatype Sys = Sys(
    ledger: State, published: seq<Event>, outbox: seq<Event>, flags: seq<Flags.Flag>,
    tracker: map<Uuid, nat>, runners: map<nat, Runner>, dispatcher: Dispatcher, spawned: seq<Uuid>, failed: set<nat>)

  datatype Step =
    | Operation(op: Op)                       // an ingestion or an admin operation, up to its commit
    | Announce(event: Event)                  // an admin operation's publication completes
    | Mute(event: Event)                      // an admin operation's publication raises
    | SetFlag(write: Flags.Write)
    | Snapshot(pending: seq<Candidate>)
    | FilterTracked
    | EvaluateFlags
    | SpawnEligible
    | FailTick
    | Read(task: nat)
    | Verify(task: nat, verdict: Verdict)
    | CommitSettlement(task: nat)
    | Wake(task: nat)
    | Publish(task: nat)
    | Fail(task: nat)

  predicate OfTask(step: Step, t: nat) {
    match step
    case Read(u) => u == t
    case Verify(u, _) => u == t
    case CommitSettlement(u) => u == t
    case Wake(u) => u == t
    case Publish(u) => u == t
    case Fail(u) => u == t
    case _ => false
  }

  // ----- the dispatcher's parts

  function CandidateOf(id: Uuid, p: Purchase): Candidate {
    Candidate(id, p.userId, p.merchantId)
  }

  ghost predicate DistinctIds(cs: seq<Candidate>) {
    forall i, j :: 0 <= i < j < |cs| ==> cs[i].id != cs[j].id
  }

  predicate PendingIn(b: Books, id: Uuid) {
    id in b.purchases && b.purchases[id].status == Pending
  }

  function CreatedAt(b: Books, id: Uuid): int {
    if id in b.purchases then b.purchases[id].createdAt else 0
  }

  /** The pending purchases, each once, oldest first. */
  ghost predicate IsSnapshot(b: Books, cs: seq<Candidate>) {
    && DistinctIds(cs)
    && (forall c :: c in cs ==> PendingIn(b, c.id) && c == CandidateOf(c.id, b.purchases[c.id]))
    && (forall id :: PendingIn(b, id) ==> CandidateOf(id, b.purchases[id]) in cs)
    && (forall i, j :: 0 <= i < j < |cs| ==> CreatedAt(b, cs[i].id) <= CreatedAt(b, cs[j].id))
  }

  /** Of the pending purchases, those without a task, in the order given. */
  function Untracked(tracker: map<Uuid, nat>, cs: seq<Candidate>): (kept: seq<Candidate>)
    ensures forall c :: c in kept <==> c in cs && c.id !in tracker
  {
    if cs == [] then []
    else
      var last := cs[|cs| - 1];
      assert cs == cs[..|cs| - 1] + [last];
      Untracked(tracker, cs[..|cs| - 1]) + if last.id in tracker then [] else [last]
  }

  /** The untracked candidates are those at the positions of untracked purchases, in order. */
  lemma {:induction false} UntrackedInOrder(tracker: map<Uuid, nat>, cs: seq<Candidate>) returns (at: seq<nat>)
    ensures Picks(cs, Untracked(tracker, cs), at)
    ensures forall i :: 0 <= i < |cs| ==> (i in at <==> cs[i].id !in tracker)
  {
    if cs == [] {
      at := [];
    } else {
      var last := |cs| - 1;
      at := UntrackedInOrder(tracker, cs[..last]);
      assert last !in at;
      PicksMore(cs, Untracked(tracker, cs[..last]), at);
      if cs[last].id !in tracker {
        at := at + [last];
      }
    }
  }

  /** The tracker after the first `n` candidates have been given tasks, numbered from `next`. */
  function AddAll(tracker: map<Uuid, nat>, cs: seq<Candidate>, n: nat, next: nat): map<Uuid, nat>
    requires n <= |cs|
  {
    if n == 0 then tracker else AddAll(tracker, cs, n - 1, next)[cs[n - 1].id := next + n - 1]
  }

  function FirstPhase(max: nat): Phase {
    if max == 0 then LastReading else Reading(1)
  }

  function SpawnAll(runners: map<nat, Runner>, cs: seq<Candidate>, n: nat, next: nat, max: nat): map<nat, Runner>
    requires n <= |cs|
  {
    if n == 0 then runners
    else SpawnAll(runners, cs, n - 1, next, max)[next + n - 1 := Runner(cs[n - 1].id, FirstPhase(max))]
  }

  function Ids(cs: seq<Candidate>): (ids: seq<Uuid>)
    ensures |ids| == |cs| && forall i :: 0 <= i < |cs| ==> ids[i] == cs[i].id
  {
    seq(|cs|, i requires 0 <= i < |cs| => cs[i].id)
  }

  // ----- publications

  /** Published by an admin operation; the others are published by runners. */
  predicate ByAdmin(e: Event) {
    e.PurchaseConfirmedByAdmin? || e.PurchaseReversed?
  }

  /** The list without its first occurrence of an event. */
  function Without(es: seq<Event>, e: Event): seq<Event> {
    if es == [] then [] else if es[0] == e then es[1..] else [es[0]] + Without(es[1..], e)
  }

  function Drop(s: Sys, e: Event): Sys {
    s.(outbox := Without(s.outbox, e))
  }

  function Deliver(s: Sys, e: Event): Sys {
    Drop(s, e).(published := s.published + [e])
  }

  // ----- steps

  ghost predicate Enabled(s: Sys, step: Step) {
    match step
    case Operation(op) => op.Ingest? || op.ConfirmByAdmin? || op.ReverseByAdmin?
    case Announce(e) => ByAdmin(e) && e in s.outbox
    case Mute(e) => ByAdmin(e) && e in s.outbox
    case SetFlag(w) => Flags.Valid(w)
    case Snapshot(cs) => s.dispatcher.Idle? && IsSnapshot(s.ledger.books, cs)
    case FilterTracked => s.dispatcher.Snapshotted?
    case EvaluateFlags => s.dispatcher.Filtered?
    case SpawnEligible => s.dispatcher.Flagged?
    case FailTick => !s.dispatcher.Stopped?
    case Read(t) => t in s.runners && (s.runners[t].phase.Reading? || s.runners[t].phase.LastReading?)
    case Verify(t, _) => t in s.runners && s.runners[t].phase.Verifying?
    case CommitSettlement(t) => t in s.runners && (s.runners[t].phase.Settling? || s.runners[t].phase.ForceRejecting?)
      && s.runners[t].purchase in s.ledger.books.purchases
    case Wake(t) => t in s.runners && s.runners[t].phase.Sleeping?
    case Publish(t) => t in s.runners && s.runners[t].phase.Publishing?
    case Fail(t) => t in s.runners
  }

  /** The runner is gone and its `finally` has removed it from the tracker. */
  function Finish(s: Sys, t: nat): Sys
    requires t in s.runners
  {
    s.(runners := s.runners - {t}, tracker := s.tracker - {s.runners[t].purchase})
  }

  function Goto(s: Sys, t: nat, phase: Phase): Sys
    requires t in s.runners
  {
    s.(runners := s.runners[t := s.runners[t].(phase := phase)])
  }

  /** The operation a runner in `Settling` or `ForceRejecting` is about to commit, whatever the row says by then. */
  function Decision(r: Runner): Op {
    if r.phase.Settling? && r.phase.approve then ConfirmByJob(r.purchase) else RejectByJob(r.purchase)
  }

  function EventOf(op: Op): Event
    requires op.ConfirmByJob? || op.RejectByJob?
  {
    if op.ConfirmByJob? then PurchaseConfirmed(op.id) else PurchaseRejected(op.id)
  }

  /** The events whose commits a step makes. */
  function Committed(s: Sys, step: Step): seq<Event>
    requires Enabled(s, step)
  {
    match step
    case Operation(op) => if Guard(s.ledger.books, op).None? then Published(s.ledger.books, op) else []
    case CommitSettlement(t) => [EventOf(Decision(s.runners[t]))]
    case _ => []
  }

  function Exec(s: Sys, max: nat, step: Step): Sys
    requires Enabled(s, step)
  {
    match step
    case Operation(op) =>
      if Guard(s.ledger.books, op).Some? then s
      else s.(ledger := Commit(s.ledger, op), outbox := s.outbox + Published(s.ledger.books, op))
    case Announce(e) => Deliver(s, e)
    case Mute(e) => Drop(s, e)
    case SetFlag(w) => s.(flags := Flags.Set(s.flags, w))
    case Snapshot(cs) => s.(dispatcher := if cs == [] then Idle else Snapshotted(cs))
    case FilterTracked =>
      var untracked := Untracked(s.tracker, s.dispatcher.pending);
      s.(dispatcher := if untracked == [] then Idle else Filtered(untracked))
    case EvaluateFlags => s.(dispatcher := Flagged(EligibleOf(s.flags, s.dispatcher.untracked)))
    case SpawnEligible =>
      var cs := s.dispatcher.eligible;
      s.(dispatcher := Idle,
         tracker := AddAll(s.tracker, cs, |cs|, |s.spawned|),
         runners := SpawnAll(s.runners, cs, |cs|, |s.spawned|, max),
         spawned := s.spawned + Ids(cs))
    case FailTick => s.(dispatcher := Stopped)
    case Read(t) =>
      var r := s.runners[t];
      if !PendingIn(s.ledger.books, r.purchase) then Finish(s, t)
      else Goto(s, t, if r.phase.Reading? then Verifying(r.phase.attempt) else ForceRejecting)
    case Verify(t, verdict) =>
      var attempt := s.runners[t].phase.attempt;
      Goto(s, t,
        match verdict
        case Approve => Settling(true)
        case Decline => Settling(false)
        case SoftFail => if attempt < max then Sleeping(attempt) else LastReading)
    case CommitSettlement(t) =>
      var event := EventOf(Decision(s.runners[t]));
      Goto(s.(ledger := Commit(s.ledger, Decision(s.runners[t])), outbox := s.outbox + [event]), t, Publishing(event))
    case Wake(t) => Goto(s, t, Reading(s.runners[t].phase.attempt + 1))
    case Publish(t) => Finish(Deliver(s, s.runners[t].phase.event), t)
    case Fail(t) =>
      var phase := s.runners[t].phase;
      Finish(if phase.Publishing? then Drop(s, phase.event) else s, t).(failed := s.failed + {t})
  }

  ghost predicate IsRun(s: Sys, max: nat, steps: seq<Step>)
    decreases |steps|
  {
    steps == [] || (Enabled(s, steps[0]) && IsRun(Exec(s, max, steps[0]), max, steps[1..]))
  }

  ghost function RunSteps(s: Sys, max: nat, steps: seq<Step>): Sys
    requires IsRun(s, max, steps)
    decreases |steps|
  {
    if steps == [] then s else RunSteps(Exec(s, max, steps[0]), max, steps[1..])
  }

  ghost predicate Leads(s: Sys, max: nat, steps: seq<Step>, s': Sys) {
    IsRun(s, max, steps) && RunSteps(s, max, steps) == s'
  }

  lemma LeadsStep(s: Sys, max: nat, step: Step, rest: seq<Step>, s': Sys)
    requires Enabled(s, step) && Leads(Exec(s, max, step), max, rest, s')
    ensures Leads(s, max, [step] + rest, s')
  {
    assert ([step] + rest)[1..] == rest;
  }

  const STARTUP := Sys(INITIAL, [], [], [], map[], map[], Idle, [], {})
}
