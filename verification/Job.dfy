/** The verification job's code: the in-flight tracker, one dispatcher tick, and the retry loop of a runner. */
module Job {
  import opened Wrappers
  import opened Ledger
  import LedgerLaws
  import LedgerRuns
  import opened Store
  import opened Services
  import Flags
  import opened Eligibility
  import opened Protocol

  class InFlightTracker {
    var tasks: map<Uuid, nat>

    constructor ()
      ensures tasks == map[]
    {
      tasks := map[];
    }

    method Add(id: Uuid, task: nat)
      modifies this
      ensures tasks == old(tasks)[id := task]
    {
      tasks := tasks[id := task];
    }

    /** No effect when the purchase is not tracked. */
    method Discard(id: Uuid)
      modifies this
      ensures tasks == old(tasks) - {id}
    {
      tasks := tasks - {id};
    }

    predicate Contains(id: Uuid)
      reads this
    {
      id in tasks
    }
  }

  // ----- the dispatcher

  lemma {:induction false} OldestExists(b: Books, ids: set<Uuid>)
    requires ids != {}
    ensures exists id :: id in ids && forall j :: j in ids ==> CreatedAt(b, id) <= CreatedAt(b, j)
    decreases |ids|
  {
    var i :| i in ids;
    if ids == {i} {
    } else {
      OldestExists(b, ids - {i});
      var o :| o in ids - {i} && forall j :: j in ids - {i} ==> CreatedAt(b, o) <= CreatedAt(b, j);
      var oldest := if CreatedAt(b, i) <= CreatedAt(b, o) then i else o;
      assert oldest in ids && forall j :: j in ids ==> CreatedAt(b, oldest) <= CreatedAt(b, j);
    }
  }

  method GetPendingPurchases(s: Session) returns (r: Result<seq<Candidate>, Error>)
    modifies s`budget
    ensures r.Ok? <==> old(s.budget) > 0
    ensures r.Ok? ==> IsSnapshot(s.working, r.value)
    ensures r.Err? ==> r.error == ConnectionLost
  {
    var executed := s.Execute();
    :- executed;
    var b := s.working;
    var pending: seq<Candidate> := [];
    var rest := set id | id in b.purchases && b.purchases[id].status == Pending;
    while rest != {}
      invariant forall id :: id in rest ==> PendingIn(b, id)
      invariant forall c :: c in pending ==>
        PendingIn(b, c.id) && c.id !in rest && c == CandidateOf(c.id, b.purchases[c.id])
      invariant DistinctIds(pending)
      invariant forall id :: PendingIn(b, id) && id !in rest ==> CandidateOf(id, b.purchases[id]) in pending
      invariant forall c, id :: c in pending && id in rest ==> CreatedAt(b, c.id) <= CreatedAt(b, id)
      invariant forall i, j :: 0 <= i < j < |pending| ==> CreatedAt(b, pending[i].id) <= CreatedAt(b, pending[j].id)
      decreases rest
    {
      OldestExists(b, rest);
      var id :| id in rest && forall j :: j in rest ==> CreatedAt(b, id) <= CreatedAt(b, j);
      assert forall i :: 0 <= i < |pending| ==> pending[i] in pending;
      pending := pending + [CandidateOf(id, b.purchases[id])];
      rest := rest - {id};
    }
    return Ok(pending);
  }

  method FilterUntracked(tracker: InFlightTracker, pending: seq<Candidate>) returns (untracked: seq<Candidate>)
    ensures untracked == Untracked(tracker.tasks, pending)
  {
    untracked := [];
    for i := 0 to |pending|
      invariant untracked == Untracked(tracker.tasks, pending[..i])
    {
      assert pending[..i + 1][..i] == pending[..i];
      if !tracker.Contains(pending[i].id) {
        untracked := untracked + [pending[i]];
      }
    }
    assert pending[..|pending|] == pending;
  }

  /** Spawns a task per eligible purchase, numbered from `next`, and tracks it at once. */
  method SpawnTasks(tracker: InFlightTracker, eligible: seq<Candidate>, next: nat)
    modifies tracker
    ensures tracker.tasks == AddAll(old(tracker.tasks), eligible, |eligible|, next)
  {
    for i := 0 to |eligible|
      invariant tracker.tasks == AddAll(old(tracker.tasks), eligible, i, next)
    {
      tracker.Add(eligible[i].id, next + i);
    }
  }

  /** The purchase is pending, and neither its user nor its merchant has switched automatic confirmation off. */
  ghost predicate Dispatched(b: Books, flags: seq<Flags.Flag>, id: Uuid) {
    && id in b.purchases && b.purchases[id].status == Pending
    && !SwitchedOff(flags, b.purchases[id].userId, b.purchases[id].merchantId)
  }

  lemma {:induction false} AddAllKeys(tracker: map<Uuid, nat>, cs: seq<Candidate>, n: nat, next: nat)
    requires n <= |cs|
    ensures forall id :: id in AddAll(tracker, cs, n, next) <==>
      id in tracker || exists i :: 0 <= i < n && cs[i].id == id
  {
    if n == 0 {
    } else {
      AddAllKeys(tracker, cs, n - 1, next);
    }
  }

  lemma FoundIsDispatched(
    b: Books, flags: seq<Flags.Flag>, tracker: map<Uuid, nat>, pending: seq<Candidate>, c: Candidate)
    requires Flags.Unique(flags) && IsSnapshot(b, pending) && c in EligibleOf(flags, Untracked(tracker, pending))
    ensures c.id !in tracker && Dispatched(b, flags, c.id)
  {
    assert c in pending && PendingIn(b, c.id) && c == CandidateOf(c.id, b.purchases[c.id]);
    EligibleUnlessSwitchedOff(flags, c);
  }

  lemma DispatchedIsFound(
    b: Books, flags: seq<Flags.Flag>, tracker: map<Uuid, nat>, pending: seq<Candidate>, id: Uuid) returns (i: nat)
    requires Flags.Unique(flags) && IsSnapshot(b, pending) && id !in tracker && Dispatched(b, flags, id)
    ensures var es := EligibleOf(flags, Untracked(tracker, pending)); i < |es| && es[i].id == id
  {
    var c := CandidateOf(id, b.purchases[id]);
    var es := EligibleOf(flags, Untracked(tracker, pending));
    EligibleUnlessSwitchedOff(flags, c);
    assert PendingIn(b, id);
    assert c in es;
    i :| 0 <= i < |es| && es[i] == c;
  }

  lemma TickFinds(b: Books, flags: seq<Flags.Flag>, tracker: map<Uuid, nat>, pending: seq<Candidate>, id: Uuid)
    requires Flags.Unique(flags) && IsSnapshot(b, pending)
    ensures var es := EligibleOf(flags, Untracked(tracker, pending));
            (exists i :: 0 <= i < |es| && es[i].id == id) <==> id !in tracker && Dispatched(b, flags, id)
  {
    var es := EligibleOf(flags, Untracked(tracker, pending));
    if i :| 0 <= i < |es| && es[i].id == id {
      FoundIsDispatched(b, flags, tracker, pending, es[i]);
    }
    if id !in tracker && Dispatched(b, flags, id) {
      var i := DispatchedIsFound(b, flags, tracker, pending, id);
    }
  }

  /** After a tick the tracker holds what it held, and every purchase that is to be dispatched. */
  lemma TickTracks(b: Books, flags: seq<Flags.Flag>, tracker: map<Uuid, nat>, pending: seq<Candidate>, next: nat)
    requires Flags.Unique(flags) && IsSnapshot(b, pending)
    ensures var es := EligibleOf(flags, Untracked(tracker, pending));
            forall id :: id in AddAll(tracker, es, |es|, next) <==> id in tracker || Dispatched(b, flags, id)
  {
    var es := EligibleOf(flags, Untracked(tracker, pending));
    AddAllKeys(tracker, es, |es|, next);
    forall id
      ensures id in AddAll(tracker, es, |es|, next) <==> id in tracker || Dispatched(b, flags, id)
    {
      TickFinds(b, flags, tracker, pending, id);
    }
  }

  /** `es` are the eligible ones, among the untracked ones, of a snapshot. */
  ghost predicate IsTick(b: Books, flags: seq<Flags.Flag>, tracker: map<Uuid, nat>, es: seq<Candidate>) {
    exists pending :: IsSnapshot(b, pending) && es == EligibleOf(flags, Untracked(tracker, pending))
  }

  /**
   * A tick that nothing interrupts: a task for every purchase that is pending, untracked and eligible. Its two
   * queries, for the pending purchases and for the flags, have a session each.
   */
  method DispatchPendingPurchases(
    db: Database, tracker: InFlightTracker, flags: seq<Flags.Flag>, budget: nat, flagBudget: nat, next: nat)
    returns (r: Result<seq<Candidate>, Error>)
    requires Flags.Unique(flags)
    modifies tracker
    ensures r.Err? ==> r.error == ConnectionLost && (budget == 0 || flagBudget == 0)
    ensures r.Err? ==> tracker.tasks == old(tracker.tasks)
    ensures r.Ok? ==> tracker.tasks == AddAll(old(tracker.tasks), r.value, |r.value|, next)
    ensures r.Ok? ==> IsTick(db.committed, flags, old(tracker.tasks), r.value)
    ensures r.Ok? ==>
      forall id :: id in tracker.tasks <==> id in old(tracker.tasks) || Dispatched(db.committed, flags, id)
  {
    var s := new Session(db, budget, []);
    var pending :- GetPendingPurchases(s);
    TickTracks(db.committed, flags, tracker.tasks, pending, next);
    if pending == [] {
      return Ok([]);
    }
    var untracked := FilterUntracked(tracker, pending);
    if untracked == [] {
      return Ok([]);
    }
    var flagSession := new Session(db, flagBudget, []);
    var fetched := flagSession.Execute();
    :- fetched;
    var eligible, _ := FilterEligiblePurchases(flags, untracked);
    SpawnTasks(tracker, eligible, next);
    return Ok(eligible);
  }

  // ----- the runner's specification

  /**
   * What other transactions commit before each of a runner's reads, and between the read and the runner's own
   * commit; and the verdicts it is given.
   */
  datatype World = World(external: seq<seq<Op>>, during: seq<seq<Op>>, verdicts: seq<Verdict>)

  ghost predicate Suits(w: World, max: nat) {
    |w.external| == max + 1 && |w.during| == max + 1 && |w.verdicts| >= max
  }

  /** The state at a runner's read number `i`, counted from zero, if the runner has not committed by then. */
  function StateAt(s: State, w: World, i: nat): State
    requires i < |w.external| && i < |w.during|
  {
    Run(if i == 0 then s else Run(StateAt(s, w, i - 1), w.during[i - 1]), w.external[i])
  }

  /** The state when that read has been followed by a verdict. */
  function ReadyAt(s: State, w: World, i: nat): State
    requires i < |w.external| && i < |w.during|
  {
    Run(StateAt(s, w, i), w.during[i])
  }

  predicate PendingAt(s: State, w: World, id: Uuid, i: nat)
    requires i < |w.external| && i < |w.during|
  {
    PendingIn(StateAt(s, w, i).books, id)
  }

  /** The runner goes on after read `i`: the purchase was pending and the verifier failed softly. */
  predicate GoesOn(s: State, w: World, id: Uuid, i: nat)
    requires i < |w.external| && i < |w.during| && i < |w.verdicts|
  {
    PendingAt(s, w, id, i) && w.verdicts[i] == SoftFail
  }

  /** The read at which the runner stops, looking from read `i` on: never later than the one after its last attempt. */
  function StopFrom(s: State, w: World, id: Uuid, max: nat, i: nat): (k: nat)
    requires Suits(w, max) && i <= max
    ensures i <= k <= max
    ensures forall j :: i <= j < k ==> GoesOn(s, w, id, j)
    ensures k < max ==> !GoesOn(s, w, id, k)
    decreases max - i
  {
    if i < max && GoesOn(s, w, id, i) then StopFrom(s, w, id, max, i + 1) else i
  }

  /** The settlement of a runner that has read its purchase pending at read `k` and stops there. */
  function DecisionAt(w: World, id: Uuid, max: nat, k: nat): Op
    requires Suits(w, max) && k <= max
  {
    if k < max && w.verdicts[k] == Approve then ConfirmByJob(id) else RejectByJob(id)
  }

  lemma ReadyKeepsRow(s: State, w: World, id: Uuid, i: nat)
    requires i < |w.external| && i < |w.during| && id in StateAt(s, w, i).books.purchases
    ensures id in ReadyAt(s, w, i).books.purchases
  {
    LedgerRuns.StatusesMoveForward(StateAt(s, w, i), w.during[i], id);
  }

  /** What a runner that stops at read `k` leaves: it settles what it read pending without reading it again. */
  function Outcome(s: State, w: World, id: Uuid, max: nat, k: nat): State
    requires Suits(w, max) && k <= max
  {
    if PendingAt(s, w, id, k) then
      ReadyKeepsRow(s, w, id, k);
      Commit(ReadyAt(s, w, k), DecisionAt(w, id, max, k))
    else StateAt(s, w, k)
  }

  /** Another transaction has settled or reversed the purchase between the runner's read and its commit. */
  predicate Overtaken(s: State, w: World, id: Uuid, k: nat)
    requires k < |w.external| && k < |w.during|
  {
    PendingAt(s, w, id, k) && !PendingIn(ReadyAt(s, w, k).books, id)
  }

  /** Verifier calls made by a runner that stops at read `k`. */
  function Calls(s: State, w: World, id: Uuid, max: nat, k: nat): nat
    requires Suits(w, max) && k <= max
  {
    if k < max && PendingAt(s, w, id, k) then k + 1 else k
  }

  /** Sleeps taken before read `k`: none before the first, and none between the last attempt and the rejection. */
  function Sleeps(max: nat, k: nat): nat {
    if k < max || k == 0 then k else k - 1
  }

  /**
   * The stop is the only read that everything before it leads on to and that does not itself lead on; so the
   * outcome is that of the first decisive verdict while pending, a rejection when every attempt fails softly,
   * and nothing once the purchase is no longer pending.
   */
  lemma StopIsFirstDecision(s: State, w: World, id: Uuid, max: nat, k: nat)
    requires Suits(w, max) && k <= max
    ensures k == StopFrom(s, w, id, max, 0)
       <==> (forall j :: 0 <= j < k ==> GoesOn(s, w, id, j)) && (k < max ==> !GoesOn(s, w, id, k))
  {
  }

  /** The stop is this read when the runner does not go on from it, and a later one when it does. */
  lemma StopsOrGoesOn(s: State, w: World, id: Uuid, max: nat, i: nat)
    requires Suits(w, max) && i < max && i <= StopFrom(s, w, id, max, 0)
    ensures if GoesOn(s, w, id, i) then i + 1 <= StopFrom(s, w, id, max, 0) else i == StopFrom(s, w, id, max, 0)
  {
  }

  // ----- a runner that nobody disturbs

  /** Nobody commits anything between the runner's steps. */
  ghost predicate Quiet(w: World) {
    && (forall i :: 0 <= i < |w.external| ==> w.external[i] == [])
    && (forall i :: 0 <= i < |w.during| ==> w.during[i] == [])
  }

  lemma {:induction false} QuietStates(s: State, w: World, i: nat)
    requires Quiet(w) && i < |w.external| && i < |w.during|
    ensures StateAt(s, w, i) == s && ReadyAt(s, w, i) == s
  {
    if i == 0 {
    } else {
      QuietStates(s, w, i - 1);
    }
  }

  /** The verdict at index `j` is the first that is not a soft failure. */
  ghost predicate FirstDecisive(verdicts: seq<Verdict>, n: nat, j: nat) {
    && j < n <= |verdicts| && verdicts[j] != SoftFail
    && forall i :: 0 <= i < j ==> verdicts[i] == SoftFail
  }

  /** What a runner of `n` attempts does to a pending purchase on its own, by the verdicts alone. */
  ghost predicate SettlesAlone(
    s: State, id: Uuid, verdicts: seq<Verdict>, n: nat, now: State, calls: nat, sleeps: nat)
    requires id in s.books.purchases && n <= |verdicts|
  {
    && (forall j: nat :: FirstDecisive(verdicts, n, j) ==>
          && now == Commit(s, if verdicts[j] == Approve then ConfirmByJob(id) else RejectByJob(id))
          && calls == j + 1 && sleeps == j)
    && ((forall i :: 0 <= i < n ==> verdicts[i] == SoftFail) ==>
          now == Commit(s, RejectByJob(id)) && calls == n && sleeps == if n == 0 then 0 else n - 1)
  }

  lemma QuietRunner(s: State, w: World, id: Uuid, n: nat)
    requires Suits(w, n) && Quiet(w)
    ensures var k := StopFrom(s, w, id, n, 0);
            if PendingIn(s.books, id) then
              SettlesAlone(s, id, w.verdicts, n, Outcome(s, w, id, n, k), Calls(s, w, id, n, k), Sleeps(n, k))
            else Outcome(s, w, id, n, k) == s && Calls(s, w, id, n, k) == 0 && Sleeps(n, k) == 0
  {
    var k := StopFrom(s, w, id, n, 0);
    forall i | 0 <= i <= n
      ensures StateAt(s, w, i) == s && ReadyAt(s, w, i) == s
    {
      QuietStates(s, w, i);
    }
    if PendingIn(s.books, id) {
      forall j: nat | FirstDecisive(w.verdicts, n, j)
        ensures k == j
      {
        StopIsFirstDecision(s, w, id, n, j);
      }
    }
  }

  // ----- bounds

  lemma RunnerIsBounded(s: State, w: World, id: Uuid, max: nat)
    requires Suits(w, max)
    ensures var k := StopFrom(s, w, id, max, 0);
            && Calls(s, w, id, max, k) <= max
            && Sleeps(max, k) <= (if max == 0 then 0 else max - 1)
            && (Calls(s, w, id, max, k) > 0 ==> Sleeps(max, k) <= Calls(s, w, id, max, k))
  {
  }

  // ----- the runner

  /** Other transactions commit. */
  method Interfere(db: Database, ops: seq<Op>)
    modifies db
    ensures db.Current() == Run(old(db.Current()), ops)
  {
    for i := 0 to |ops|
      invariant Run(db.Current(), ops[i..]) == Run(old(db.Current()), ops)
    {
      ghost var before := db.Current();
      assert ops[i..][0] == ops[i] && ops[i..][1..] == ops[i + 1..];
      if Guard(db.committed, ops[i]).None? {
        var events := Published(db.committed, ops[i]);
        if ops[i].ReverseByAdmin? && db.committed.purchases[ops[i].id].status == Rejected {
          db.clawed := db.clawed + {ops[i].id};
        }
        db.committed := Write(db.committed, ops[i]);
        db.published := db.published + events;
      }
      assert db.Current() == Apply(before, ops[i]);
    }
  }

  /**
   * What a runner's attempt depends on: the statements its connection carries, its verifier, and which of its
   * event's subscribers raise.
   */
  datatype Link = Link(budget: nat, verifierUp: bool, subscribers: seq<bool>)

  predicate Heard(link: Link) {
    forall i :: 0 <= i < |link.subscribers| ==> link.subscribers[i]
  }

  /** Nothing that the attempt depends on raises; no attempt needs more than five statements. */
  predicate Live(link: Link) {
    link.budget >= 5 && link.verifierUp && Heard(link)
  }

  /**
   * How a runner dies at read `i`, and what it leaves behind: nothing of its own, or a settlement whose event
   * was not handled.
   */
  ghost predicate Dies(s: State, w: World, id: Uuid, max: nat, link: Link, i: nat, error: Error, now: State)
    requires Suits(w, max) && i <= StopFrom(s, w, id, max, 0)
  {
    match error
    case ConnectionLost =>
      link.budget < 5 && (now == StateAt(s, w, i) || (PendingAt(s, w, id, i) && now == ReadyAt(s, w, i)))
    case VerifierFailed => !link.verifierUp && i < max && PendingAt(s, w, id, i) && now == ReadyAt(s, w, i)
    case SubscriberFailed =>
      && !Heard(link) && i == StopFrom(s, w, id, max, 0) && PendingAt(s, w, id, i)
      && now == Outcome(s, w, id, max, i).(log := ReadyAt(s, w, i).log)
    case _ => false
  }

  /** How a runner ends: at its stop with that outcome, or dead at a read no later than it. */
  ghost predicate Ends(
    s: State, w: World, id: Uuid, max: nat, links: seq<Link>,
    r: Result<(), Error>, calls: nat, sleeps: nat, at: nat, now: State)
    requires Suits(w, max) && |links| == max + 1
  {
    var k := StopFrom(s, w, id, max, 0);
    match r
    case Ok(_) => now == Outcome(s, w, id, max, k) && calls == Calls(s, w, id, max, k) && sleeps == Sleeps(max, k)
    case Err(e) =>
      && at <= k && Dies(s, w, id, max, links[at], at, e, now)
      && at <= calls <= at + 1 && calls <= max && sleeps == Sleeps(max, at)
  }

  /** The runner has read its purchase pending at its stop `i`, and has settled it or raised in doing so. */
  lemma SettlingEnds(
    s: State, w: World, id: Uuid, max: nat, links: seq<Link>,
    r: Result<(), Error>, calls: nat, sleeps: nat, i: nat, now: State)
    requires Suits(w, max) && |links| == max + 1
    requires i == StopFrom(s, w, id, max, 0) && PendingAt(s, w, id, i)
    requires calls == Calls(s, w, id, max, i) && sleeps == Sleeps(max, i)
    requires match r
             case Ok(_) => now == Outcome(s, w, id, max, i)
             case Err(e) =>
               if e == SubscriberFailed then
                 !Heard(links[i]) && now == Outcome(s, w, id, max, i).(log := ReadyAt(s, w, i).log)
               else now == ReadyAt(s, w, i) && e == ConnectionLost && links[i].budget < 5
    ensures Ends(s, w, id, max, links, r, calls, sleeps, i, now)
  {
  }

  /** The runner stops or dies at read `i` before it has written anything. */
  lemma QuietEnds(
    s: State, w: World, id: Uuid, max: nat, links: seq<Link>,
    r: Result<(), Error>, calls: nat, sleeps: nat, i: nat, now: State)
    requires Suits(w, max) && |links| == max + 1
    requires i <= StopFrom(s, w, id, max, 0) && sleeps == Sleeps(max, i)
    requires match r
             case Ok(_) => !PendingAt(s, w, id, i) && calls == i && now == StateAt(s, w, i)
             case Err(e) =>
               || (e == ConnectionLost && links[i].budget < 5 && calls == i && now == StateAt(s, w, i))
               || (e == VerifierFailed && !links[i].verifierUp && i < max && PendingAt(s, w, id, i) && calls == i + 1
                   && now == ReadyAt(s, w, i))
    ensures Ends(s, w, id, max, links, r, calls, sleeps, i, now)
  {
    if i < max {
      StopsOrGoesOn(s, w, id, max, i);
    }
  }

  /** A decisive verdict: the session, which has only read so far, writes to what is committed by now. */
  method Settle(s: Session, id: Uuid, approve: bool) returns (r: Result<(), Error>)
    requires id in s.db.committed.purchases
    modifies s, s.db
    ensures Settled(s, if approve then ConfirmByJob(id) else RejectByJob(id), r)
  {
    s.working := s.db.committed;
    if approve {
      r := ConfirmPurchase(s, id);
    } else {
      r := RejectPurchase(s, id);
    }
  }

  /** What the last read and the forced rejection leave. */
  ghost predicate IsForced(s: State, w: World, id: Uuid, max: nat, link: Link, r: Result<(), Error>, now: State)
    requires Suits(w, max)
  {
    match r
    case Ok(_) => now == Outcome(s, w, id, max, max)
    case Err(SubscriberFailed) =>
      !Heard(link) && PendingAt(s, w, id, max) && now == Outcome(s, w, id, max, max).(log := ReadyAt(s, w, max).log)
    case Err(e) =>
      && e == ConnectionLost && link.budget < 5
      && (now == StateAt(s, w, max) || (PendingAt(s, w, id, max) && now == ReadyAt(s, w, max)))
  }

  lemma ForcedEnds(
    s: State, w: World, id: Uuid, max: nat, links: seq<Link>, r: Result<(), Error>, calls: nat, sleeps: nat, now: State)
    requires Suits(w, max) && |links| == max + 1 && max == StopFrom(s, w, id, max, 0)
    requires IsForced(s, w, id, max, links[max], r, now) && calls == max && sleeps == Sleeps(max, max)
    ensures Ends(s, w, id, max, links, r, calls, sleeps, max, now)
  {
  }

  /** The last read and, if the purchase is pending still, its rejection. */
  method ForcedRejection(db: Database, id: Uuid, ghost start: State, w: World, link: Link, max: nat)
    returns (r: Result<(), Error>)
    requires Suits(w, max)
    requires db.Current() == if max == 0 then start else ReadyAt(start, w, max - 1)
    modifies db
    ensures IsForced(start, w, id, max, link, r, db.Current())
  {
    Interfere(db, w.external[max]);
    var s := new Session(db, link.budget, link.subscribers);
    var found :- GetById(s, id);
    if found.Some? && found.value.status == Pending {
      ReadyKeepsRow(start, w, id, max);
      Interfere(db, w.during[max]);
      r := Settle(s, id, false);
      return;
    }
    return Ok(());
  }

  /**
   * The body of the `try`: attempts, each in a session of its own, then a last read and the forced rejection;
   * `links[i]` is what the attempt behind read `i` depends on. A session that has only read sees what others
   * commit in the meantime.
   */
  method Attempts(db: Database, id: Uuid, ghost start: State, w: World, links: seq<Link>, maxAttempts: nat)
    returns (r: Result<(), Error>, calls: nat, sleeps: nat, ghost at: nat)
    requires Suits(w, maxAttempts) && |links| == maxAttempts + 1
    requires start == db.Current()
    modifies db
    ensures Ends(start, w, id, maxAttempts, links, r, calls, sleeps, at, db.Current())
  {
    calls, sleeps, at := 0, 0, 0;
    for i := 0 to maxAttempts
      invariant db.Current() == if i == 0 then start else ReadyAt(start, w, i - 1)
      invariant i <= StopFrom(start, w, id, maxAttempts, 0)
      invariant calls == i && sleeps == Sleeps(maxAttempts, i)
    {
      at := i;
      Interfere(db, w.external[i]);
      assert db.Current() == StateAt(start, w, i);
      var s := new Session(db, links[i].budget, links[i].subscribers);
      var found := GetById(s, id);
      if found.Err? || found.value.None? || found.value.value.status != Pending {
        r := if found.Err? then Err(found.error) else Ok(());
        QuietEnds(start, w, id, maxAttempts, links, r, calls, sleeps, i, db.Current());
        return;
      }
      calls := calls + 1;
      ReadyKeepsRow(start, w, id, i);
      Interfere(db, w.during[i]);
      if !links[i].verifierUp {
        r := Err(VerifierFailed);
        QuietEnds(start, w, id, maxAttempts, links, r, calls, sleeps, i, db.Current());
        return;
      }
      StopsOrGoesOn(start, w, id, maxAttempts, i);
      if w.verdicts[i] != SoftFail {
        r := Settle(s, id, w.verdicts[i] == Approve);
        SettlingEnds(start, w, id, maxAttempts, links, r, calls, sleeps, i, db.Current());
        return;
      }
      if i + 1 < maxAttempts {
        sleeps := sleeps + 1;
      }
    }
    at := maxAttempts;
    r := ForcedRejection(db, id, start, w, links[maxAttempts], maxAttempts);
    ForcedEnds(start, w, id, maxAttempts, links, r, calls, sleeps, db.Current());
  }

  // ----- what a runner leaves

  lemma {:induction false} StateAtIsConsistent(s: State, w: World, i: nat)
    requires i < |w.external| && i < |w.during| && Consistent(s)
    ensures Consistent(StateAt(s, w, i)) && Consistent(ReadyAt(s, w, i))
  {
    if i == 0 {
      LedgerLaws.RunKeepsConsistent(s, w.external[0]);
    } else {
      StateAtIsConsistent(s, w, i - 1);
      LedgerLaws.RunKeepsConsistent(ReadyAt(s, w, i - 1), w.external[i]);
    }
    LedgerLaws.RunKeepsConsistent(StateAt(s, w, i), w.during[i]);
  }

  lemma {:induction false} StateAtIsSound(s: State, w: World, i: nat)
    requires i < |w.external| && i < |w.during| && Sound(s)
    ensures Sound(StateAt(s, w, i)) && Sound(ReadyAt(s, w, i))
  {
    if i == 0 {
      LedgerLaws.RunKeepsSound(s, w.external[0]);
    } else {
      StateAtIsSound(s, w, i - 1);
      LedgerLaws.RunKeepsSound(ReadyAt(s, w, i - 1), w.external[i]);
    }
    LedgerLaws.RunKeepsSound(StateAt(s, w, i), w.during[i]);
  }

  /** A runner that stops leaves all the laws exactly when nobody has settled what it settles in the meantime. */
  lemma OutcomeIsConsistentIff(s: State, w: World, id: Uuid, max: nat, k: nat)
    requires Suits(w, max) && k <= max && Consistent(s)
    ensures Consistent(Outcome(s, w, id, max, k)) <==> !Overtaken(s, w, id, k)
  {
    StateAtIsConsistent(s, w, k);
    if PendingAt(s, w, id, k) {
      ReadyKeepsRow(s, w, id, k);
      LedgerLaws.SettlementKeepsConsistentIff(ReadyAt(s, w, k), DecisionAt(w, id, max, k));
    }
  }

  /** Unless it was overtaken a runner leaves sound tables, even when its own event was lost. */
  lemma OutcomeIsSound(s: State, w: World, id: Uuid, max: nat, k: nat)
    requires Suits(w, max) && k <= max && Sound(s) && !Overtaken(s, w, id, k)
    ensures Sound(Outcome(s, w, id, max, k)) && Sound(Outcome(s, w, id, max, k).(log := ReadyAt(s, w, k).log))
  {
    StateAtIsSound(s, w, k);
    if PendingAt(s, w, id, k) {
      CommitKeepsLaws(ReadyAt(s, w, k), DecisionAt(w, id, max, k));
    } else {
      SoundWithoutLog(StateAt(s, w, k), ReadyAt(s, w, k).log);
    }
  }

  /** A runner that dies before its commit leaves what the others did. */
  lemma DeadRunnerKeepsLaws(s: State, w: World, id: Uuid, max: nat, link: Link, i: nat, error: Error, now: State)
    requires Suits(w, max) && i <= StopFrom(s, w, id, max, 0) && Dies(s, w, id, max, link, i, error, now)
    ensures error != SubscriberFailed ==> Kept(s, now, false)
    ensures error == SubscriberFailed && !Overtaken(s, w, id, i) ==> Kept(s, now, true)
  {
    if Sound(s) {
      StateAtIsSound(s, w, i);
      if !Overtaken(s, w, id, i) {
        OutcomeIsSound(s, w, id, max, i);
      }
    }
    if Consistent(s) {
      StateAtIsConsistent(s, w, i);
    }
  }

  // ----- the whole runner

  /**
   * A runner: whatever its attempts did, including raising, it leaves the tracker at the end. It keeps the laws
   * when it was not overtaken; when it committed with its event it keeps them exactly then. A negative number of
   * attempts counts as none: the runner goes straight to the forced rejection.
   */
  method RunVerificationWithRetry(
    db: Database, tracker: InFlightTracker, id: Uuid, w: World, links: seq<Link>, maxAttempts: int)
    returns (r: Result<(), Error>, calls: nat, sleeps: nat, ghost at: nat)
    requires Suits(w, if maxAttempts > 0 then maxAttempts else 0)
    requires |links| == (if maxAttempts > 0 then maxAttempts else 0) + 1
    modifies db, tracker
    ensures tracker.tasks == old(tracker.tasks) - {id}
    ensures calls <= if maxAttempts > 0 then maxAttempts else 0
    ensures var n := if maxAttempts > 0 then maxAttempts else 0;
            Ends(old(db.Current()), w, id, n, links, r, calls, sleeps, at, db.Current())
    ensures (forall i :: 0 <= i < |links| ==> Live(links[i])) ==> r.Ok?
    ensures var n := if maxAttempts > 0 then maxAttempts else 0;
            var start, now := old(db.Current()), db.Current();
            (forall i :: 0 <= i < |links| ==> Live(links[i])) && Quiet(w) ==>
              if PendingIn(start.books, id) then SettlesAlone(start, id, w.verdicts, n, now, calls, sleeps)
              else now == start && calls == 0 && sleeps == 0
    ensures var n := if maxAttempts > 0 then maxAttempts else 0;
            var start, now, k := old(db.Current()), db.Current(), StopFrom(old(db.Current()), w, id, n, 0);
            && (r.Ok? && Consistent(start) ==> (Consistent(now) <==> !Overtaken(start, w, id, k)))
            && (r.Err? && r.error != SubscriberFailed ==> Kept(start, now, false))
            && (!Overtaken(start, w, id, k) ==> Kept(start, now, Unpublished(r)))
  {
    ghost var start := db.Current();
    var n: nat := if maxAttempts > 0 then maxAttempts else 0;
    ghost var k := StopFrom(start, w, id, n, 0);
    r, calls, sleeps, at := Attempts(db, id, start, w, links, n);
    RunnerIsBounded(start, w, id, n);
    tracker.Discard(id);
    if r.Err? {
      DeadRunnerKeepsLaws(start, w, id, n, links[at], at, r.error, db.Current());
    } else {
      if Quiet(w) {
        QuietRunner(start, w, id, n);
      }
      if Sound(start) && !Overtaken(start, w, id, k) {
        OutcomeIsSound(start, w, id, n, k);
      }
      if Consistent(start) {
        OutcomeIsConsistentIff(start, w, id, n, k);
      }
    }
  }
}
