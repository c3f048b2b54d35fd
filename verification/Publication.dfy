/** The published events against the committed statuses, with commits and publications cut apart. */
module Publication {
  import opened Wrappers
  import opened Ledger
  import opened LedgerLaws
  import opened Protocol
  import opened ProtocolLaws
  import opened SafeRuns

  // ----- the events of one purchase

  lemma EventsOfOne(e: Event, id: Uuid)
    ensures EventsOf([e], id) == if e.id == id then [e] else []
  {
    assert [e][..0] == [];
  }

  lemma EventsOfHead(x: Event, es: seq<Event>, id: Uuid)
    ensures EventsOf([x] + es, id) == if x.id == id then [x] + EventsOf(es, id) else EventsOf(es, id)
  {
    EventsOfConcat([x], es, id);
    EventsOfOne(x, id);
    assert [] + EventsOf(es, id) == EventsOf(es, id);
  }

  lemma {:induction false} EventsOfMembers(es: seq<Event>, id: Uuid, e: Event)
    ensures e in EventsOf(es, id) <==> e in es && e.id == id
  {
    if es == [] {
    } else {
      assert es == es[..|es| - 1] + [es[|es| - 1]];
      EventsOfMembers(es[..|es| - 1], id, e);
    }
  }

  lemma WithoutHead(x: Event, es: seq<Event>, e: Event)
    ensures Without([x] + es, e) == if x == e then es else [x] + Without(es, e)
  {
    assert ([x] + es)[1..] == es;
  }

  /** Taking one event out takes out the first of its purchase's that equals it. */
  lemma {:induction false} EventsOfWithout(es: seq<Event>, e: Event, id: Uuid)
    ensures EventsOf(Without(es, e), id)
         == if e.id == id then Without(EventsOf(es, id), e) else EventsOf(es, id)
  {
    if es == [] {
    } else {
      EventsOfHead(es[0], es[1..], id);
      EventsOfHead(es[0], Without(es[1..], e), id);
      WithoutHead(es[0], EventsOf(es[1..], id), e);
      EventsOfWithout(es[1..], e, id);
      assert es == [es[0]] + es[1..];
    }
  }

  lemma {:induction false} WithoutOthers(es: seq<Event>, e: Event, f: Event)
    requires f in es && f != e
    ensures f in Without(es, e)
  {
    if es[0] == e || es[0] == f {
    } else {
      WithoutOthers(es[1..], e, f);
    }
  }

  lemma {:induction false} WithoutMembers(es: seq<Event>, e: Event)
    ensures |Without(es, e)| == if e in es then |es| - 1 else |es|
    ensures forall f :: f in Without(es, e) ==> f in es
  {
    if es == [] || es[0] == e {
    } else {
      WithoutMembers(es[1..], e);
    }
  }

  // ----- what is being published

  predicate Posted(s: Sys, t: nat)
    requires t in s.runners && s.runners[t].phase.Publishing?
  {
    var e := s.runners[t].phase.event;
    e.id == s.runners[t].purchase && !ByAdmin(e) && e in s.outbox
  }

  /** A publishing runner's event is of its purchase and among those being published. */
  ghost predicate PostingLaw(s: Sys) {
    forall t :: t in s.runners && s.runners[t].phase.Publishing? ==> Posted(s, t)
  }

  /** The event whose publication a step completes, and the one whose publication raises. */
  function Delivered(s: Sys, step: Step): Option<Event>
    requires Enabled(s, step)
  {
    match step
    case Announce(e) => Some(e)
    case Publish(t) => Some(s.runners[t].phase.event)
    case _ => None
  }

  function Lost(s: Sys, step: Step): Option<Event>
    requires Enabled(s, step)
  {
    match step
    case Mute(e) => Some(e)
    case Fail(t) => if s.runners[t].phase.Publishing? then Some(s.runners[t].phase.event) else None
    case _ => None
  }

  /** A step commits an event, or completes a publication, or loses one, or does none of these. */
  lemma StepMovesEvents(s: Sys, max: nat, step: Step)
    requires Enabled(s, step) && PostingLaw(s)
    ensures var s' := Exec(s, max, step);
            && s'.ledger.log == s.ledger.log + Committed(s, step) && |Committed(s, step)| <= 1
            && s'.published == s.published + (if Delivered(s, step).Some? then [Delivered(s, step).value] else [])
            && s'.outbox
               == (if Delivered(s, step).Some? then Without(s.outbox, Delivered(s, step).value)
                   else if Lost(s, step).Some? then Without(s.outbox, Lost(s, step).value)
                   else s.outbox + Committed(s, step))
    ensures Delivered(s, step).Some? ==> Delivered(s, step).value in s.outbox && Committed(s, step) == []
    ensures Lost(s, step).Some? ==>
      Lost(s, step).value in s.outbox && Committed(s, step) == [] && Delivered(s, step).None?
  {
    StepCommits(s, max, step);
  }

  /** Another task's publication, or an admin's, takes nothing from a publishing runner. */
  lemma RemainsPosted(s: Sys, step: Step, t: nat)
    requires PostingLaw(s) && TrackerLaw(s) && Enabled(s, step) && !OfTask(step, t)
    requires t in s.runners && s.runners[t].phase.Publishing?
    ensures var e := s.runners[t].phase.event;
            && (Delivered(s, step).Some? ==> e in Without(s.outbox, Delivered(s, step).value))
            && (Lost(s, step).Some? ==> e in Without(s.outbox, Lost(s, step).value))
  {
    if Delivered(s, step).Some? {
      WithoutOthers(s.outbox, Delivered(s, step).value, s.runners[t].phase.event);
    } else if Lost(s, step).Some? {
      WithoutOthers(s.outbox, Lost(s, step).value, s.runners[t].phase.event);
    }
  }

  /** A runner that is publishing after a step was doing so before it, or has just committed. */
  lemma PublishingRunner(s: Sys, max: nat, step: Step, t: nat)
    requires PostingLaw(s) && Enabled(s, step)
    requires t in Exec(s, max, step).runners && Exec(s, max, step).runners[t].phase.Publishing?
    ensures || (t in s.runners && s.runners[t] == Exec(s, max, step).runners[t] && !OfTask(step, t))
            || (step == CommitSettlement(t)
                && Exec(s, max, step).runners[t] == s.runners[t].(phase := Publishing(EventOf(Decision(s.runners[t])))))
  {
    if step.SpawnEligible? {
      SpawnAllSpawns(s.runners, s.dispatcher.eligible, |s.dispatcher.eligible|, |s.spawned|, max);
    }
  }

  lemma StepKeepsPostingLaw(s: Sys, max: nat, step: Step)
    requires PostingLaw(s) && TrackerLaw(s) && Enabled(s, step)
    ensures PostingLaw(Exec(s, max, step))
  {
    var s' := Exec(s, max, step);
    forall t | t in s'.runners && s'.runners[t].phase.Publishing?
      ensures Posted(s', t)
    {
      StepMovesEvents(s, max, step);
      PublishingRunner(s, max, step, t);
      if step != CommitSettlement(t) {
        assert Posted(s, t);
        RemainsPosted(s, step, t);
      }
    }
  }

  // ----- published in commit order

  /** The events of a purchase's commits are those published, in order, and then those being published. */
  ghost predicate InOrder(s: Sys, id: Uuid) {
    EventsOf(s.ledger.log, id) == EventsOf(s.published, id) + EventsOf(s.outbox, id)
  }

  /** Something of the purchase's has been published out of order or lost, which nothing makes good. */
  ghost predicate Garbled(s: Sys, id: Uuid) {
    || !(EventsOf(s.published, id) <= EventsOf(s.ledger.log, id))
    || |EventsOf(s.published, id)| + |EventsOf(s.outbox, id)| < |EventsOf(s.ledger.log, id)|
  }

  /** What has been published, or is being, was committed. */
  ghost predicate CommittedLaw(s: Sys, id: Uuid) {
    && |EventsOf(s.published, id)| + |EventsOf(s.outbox, id)| <= |EventsOf(s.ledger.log, id)|
    && (forall e :: e in EventsOf(s.published, id) || e in EventsOf(s.outbox, id) ==> e in EventsOf(s.ledger.log, id))
  }

  /** The step publishes the purchase's oldest event being published, or none, and loses none of the purchase's. */
  ghost predicate Orderly(s: Sys, step: Step, id: Uuid)
    requires Enabled(s, step)
  {
    && (Delivered(s, step).Some? && Delivered(s, step).value.id == id ==>
          EventsOf(s.outbox, id) != [] && EventsOf(s.outbox, id)[0] == Delivered(s, step).value)
    && (Lost(s, step).Some? ==> Lost(s, step).value.id != id)
  }

  function OnlyOf(e: Option<Event>, id: Uuid): seq<Event> {
    if e.Some? && e.value.id == id then [e.value] else []
  }

  function WithoutOf(es: seq<Event>, e: Option<Event>, id: Uuid): seq<Event> {
    if e.Some? && e.value.id == id then Without(es, e.value) else es
  }

  lemma EventsOfDelivered(published: seq<Event>, e: Option<Event>, id: Uuid)
    ensures EventsOf(published + (if e.Some? then [e.value] else []), id) == EventsOf(published, id) + OnlyOf(e, id)
  {
    if e.Some? {
      EventsOfConcat(published, [e.value], id);
      EventsOfOne(e.value, id);
    } else {
      assert published + [] == published;
    }
  }

  lemma EventsOfRemoved(outbox: seq<Event>, e: Option<Event>, id: Uuid)
    requires e.Some? ==> e.value in outbox
    ensures EventsOf(if e.Some? then Without(outbox, e.value) else outbox, id) == WithoutOf(EventsOf(outbox, id), e, id)
    ensures e.Some? && e.value.id == id ==> e.value in EventsOf(outbox, id)
  {
    if e.Some? {
      EventsOfWithout(outbox, e.value, id);
      EventsOfMembers(outbox, id, e.value);
    }
  }

  /** The event whose publication ends with the step, one way or the other. */
  function Removed(s: Sys, step: Step): Option<Event>
    requires Enabled(s, step)
  {
    if Delivered(s, step).Some? then Delivered(s, step) else Lost(s, step)
  }

  /** The same step on the three lists of one purchase. */
  lemma StepMovesOwnEvents(s: Sys, max: nat, step: Step, id: Uuid)
    requires Enabled(s, step) && PostingLaw(s)
    ensures var s' := Exec(s, max, step);
            var committed, removed := EventsOf(Committed(s, step), id), Removed(s, step);
            && EventsOf(s'.ledger.log, id) == EventsOf(s.ledger.log, id) + committed
            && EventsOf(s'.published, id) == EventsOf(s.published, id) + OnlyOf(Delivered(s, step), id)
            && EventsOf(s'.outbox, id) == WithoutOf(EventsOf(s.outbox, id), removed, id) + committed
            && (removed.Some? && removed.value.id == id ==> committed == [] && removed.value in EventsOf(s.outbox, id))
  {
    StepMovesEvents(s, max, step);
    EventsOfConcat(s.ledger.log, Committed(s, step), id);
    EventsOfDelivered(s.published, Delivered(s, step), id);
    EventsOfRemoved(s.outbox, Removed(s, step), id);
    if Removed(s, step).None? {
      EventsOfConcat(s.outbox, Committed(s, step), id);
    }
  }

  /** The event is of the purchase. */
  predicate Own(e: Option<Event>, id: Uuid) {
    e.Some? && e.value.id == id
  }

  lemma OwnDelivery(s: Sys, max: nat, step: Step, id: Uuid)
    requires Enabled(s, step) && PostingLaw(s) && Own(Delivered(s, step), id)
    ensures var s', e := Exec(s, max, step), Delivered(s, step).value;
            && EventsOf(s'.ledger.log, id) == EventsOf(s.ledger.log, id)
            && EventsOf(s'.published, id) == EventsOf(s.published, id) + [e]
            && EventsOf(s'.outbox, id) == Without(EventsOf(s.outbox, id), e) && e in EventsOf(s.outbox, id)
  {
    StepMovesOwnEvents(s, max, step, id);
    assert EventsOf(s.ledger.log, id) + [] == EventsOf(s.ledger.log, id);
  }

  lemma OwnLoss(s: Sys, max: nat, step: Step, id: Uuid)
    requires Enabled(s, step) && PostingLaw(s) && !Own(Delivered(s, step), id) && Own(Lost(s, step), id)
    ensures var s', e := Exec(s, max, step), Lost(s, step).value;
            && EventsOf(s'.ledger.log, id) == EventsOf(s.ledger.log, id)
            && EventsOf(s'.published, id) == EventsOf(s.published, id)
            && EventsOf(s'.outbox, id) == Without(EventsOf(s.outbox, id), e) && e in EventsOf(s.outbox, id)
  {
    StepMovesEvents(s, max, step);
    StepMovesOwnEvents(s, max, step, id);
    assert EventsOf(s.ledger.log, id) + [] == EventsOf(s.ledger.log, id);
    assert EventsOf(s.published, id) + [] == EventsOf(s.published, id);
  }

  lemma OnlyCommits(s: Sys, max: nat, step: Step, id: Uuid)
    requires Enabled(s, step) && PostingLaw(s) && !Own(Delivered(s, step), id) && !Own(Lost(s, step), id)
    ensures var s', committed := Exec(s, max, step), EventsOf(Committed(s, step), id);
            && EventsOf(s'.ledger.log, id) == EventsOf(s.ledger.log, id) + committed
            && EventsOf(s'.published, id) == EventsOf(s.published, id)
            && EventsOf(s'.outbox, id) == EventsOf(s.outbox, id) + committed
  {
    StepMovesOwnEvents(s, max, step, id);
    assert EventsOf(s.published, id) + [] == EventsOf(s.published, id);
  }

  lemma StepKeepsCommittedLaw(s: Sys, max: nat, step: Step, id: Uuid)
    requires CommittedLaw(s, id) && PostingLaw(s) && Enabled(s, step)
    ensures CommittedLaw(Exec(s, max, step), id)
  {
    StepMovesOwnEvents(s, max, step, id);
    if Removed(s, step).Some? {
      WithoutMembers(EventsOf(s.outbox, id), Removed(s, step).value);
    }
  }

  lemma CommitIsLast(log: seq<Event>, published: seq<Event>, out: seq<Event>, committed: seq<Event>)
    requires log == published + out
    ensures log + committed == published + (out + committed)
  {
  }

  lemma OldestIsNext(log: seq<Event>, published: seq<Event>, out: seq<Event>, e: Event)
    requires log == published + out && e in out
    ensures if out[0] == e then log == (published + [e]) + Without(out, e) else !(published + [e] <= log)
  {
    if out[0] == e {
      assert out == [e] + out[1..];
    } else {
      assert log[|published|] == out[0] && (published + [e])[|published|] == e;
    }
  }

  /** In order, a purchase's events stay in order exactly over orderly steps; any other step garbles them. */
  lemma StepKeepsOrderIff(s: Sys, max: nat, step: Step, id: Uuid)
    requires InOrder(s, id) && PostingLaw(s) && Enabled(s, step)
    ensures if Orderly(s, step, id) then InOrder(Exec(s, max, step), id) else Garbled(Exec(s, max, step), id)
  {
    var log, published, out := EventsOf(s.ledger.log, id), EventsOf(s.published, id), EventsOf(s.outbox, id);
    if Own(Delivered(s, step), id) {
      StepMovesEvents(s, max, step);
      OwnDelivery(s, max, step, id);
      OldestIsNext(log, published, out, Delivered(s, step).value);
    } else if Own(Lost(s, step), id) {
      OwnLoss(s, max, step, id);
      WithoutMembers(out, Lost(s, step).value);
    } else {
      OnlyCommits(s, max, step, id);
      CommitIsLast(log, published, out, EventsOf(Committed(s, step), id));
    }
  }

  /** A mismatch within the events already committed stays, and so does a missing event. */
  lemma GarbledStays(log: seq<Event>, published: seq<Event>, out: nat, more: seq<Event>, next: seq<Event>, out': nat)
    requires |published| + out <= |log| && |next| + out' <= |published| + out + |more|
    requires published <= next && (more == [] || next == published)
    requires !(published <= log) || |published| + out < |log|
    ensures !(next <= log + more) || |next| + out' < |log + more|
  {
    if next <= log + more {
      assert published == (log + more)[..|published|] == log[..|published|];
    }
  }

  lemma StepKeepsGarbled(s: Sys, max: nat, step: Step, id: Uuid)
    requires Garbled(s, id) && CommittedLaw(s, id) && PostingLaw(s) && Enabled(s, step)
    ensures Garbled(Exec(s, max, step), id)
  {
    var log, published, out := EventsOf(s.ledger.log, id), EventsOf(s.published, id), EventsOf(s.outbox, id);
    if Own(Delivered(s, step), id) {
      var e := Delivered(s, step).value;
      OwnDelivery(s, max, step, id);
      WithoutMembers(out, e);
      GarbledStays(log, published, |out|, [], published + [e], |out| - 1);
      assert log + [] == log;
    } else if Own(Lost(s, step), id) {
      OwnLoss(s, max, step, id);
      WithoutMembers(out, Lost(s, step).value);
    } else {
      var committed := EventsOf(Committed(s, step), id);
      OnlyCommits(s, max, step, id);
      GarbledStays(log, published, |out|, committed, published, |out + committed|);
    }
  }

  ghost predicate IsOrderlyRun(s: Sys, max: nat, steps: seq<Step>, id: Uuid)
    requires IsRun(s, max, steps)
    decreases |steps|
  {
    steps == [] || (Orderly(s, steps[0], id) && IsOrderlyRun(Exec(s, max, steps[0]), max, steps[1..], id))
  }

  ghost predicate PublicationLaw(s: Sys, id: Uuid) {
    TrackerLaw(s) && TickLaw(s) && PostingLaw(s) && CommittedLaw(s, id)
  }

  lemma StepKeepsPublicationLaw(s: Sys, max: nat, step: Step, id: Uuid)
    requires PublicationLaw(s, id) && Enabled(s, step)
    ensures PublicationLaw(Exec(s, max, step), id)
  {
    StepKeepsTrackerLaw(s, max, step);
    StepKeepsTickLaw(s, max, step);
    StepKeepsPostingLaw(s, max, step);
    StepKeepsCommittedLaw(s, max, step, id);
  }

  lemma {:induction false} RunKeepsGarbled(s: Sys, max: nat, steps: seq<Step>, id: Uuid)
    requires Garbled(s, id) && PublicationLaw(s, id) && IsRun(s, max, steps)
    ensures Garbled(RunSteps(s, max, steps), id) && PublicationLaw(RunSteps(s, max, steps), id)
    decreases |steps|
  {
    if steps == [] {
    } else {
      StepKeepsGarbled(s, max, steps[0], id);
      StepKeepsPublicationLaw(s, max, steps[0], id);
      RunKeepsGarbled(Exec(s, max, steps[0]), max, steps[1..], id);
    }
  }

  /**
   * In every interleaving: a purchase's events are published in the order of their commits, with none lost,
   * exactly when each of its publications completes without raising and before none older of the purchase.
   */
  lemma {:induction false} RunKeepsOrderIff(s: Sys, max: nat, steps: seq<Step>, id: Uuid)
    requires InOrder(s, id) && PublicationLaw(s, id) && IsRun(s, max, steps)
    ensures PublicationLaw(RunSteps(s, max, steps), id)
    ensures if IsOrderlyRun(s, max, steps, id) then InOrder(RunSteps(s, max, steps), id)
            else Garbled(RunSteps(s, max, steps), id)
    decreases |steps|
  {
    if steps == [] {
    } else {
      var s' := Exec(s, max, steps[0]);
      StepKeepsOrderIff(s, max, steps[0], id);
      StepKeepsPublicationLaw(s, max, steps[0], id);
      if Orderly(s, steps[0], id) {
        RunKeepsOrderIff(s', max, steps[1..], id);
      } else {
        RunKeepsGarbled(s', max, steps[1..], id);
      }
    }
  }

  // ----- the published log against the stored status

  /** The published events of the purchase are well formed and fold to its stored status. */
  ghost predicate PublishedAgrees(s: Sys, id: Uuid) {
    LogAgrees(s.ledger.(log := s.published), id)
  }

  /** A well-formed part of a well-formed history that folds to the same status is the whole of it. */
  lemma PartOfHistory(es: seq<Event>, part: seq<Event>)
    requires WellFormed(es) && WellFormed(part) && Folded(part) == Folded(es)
    requires |part| <= |es| && forall e :: e in part ==> e in es
    ensures part == es
  {
    assert part[..0] == [];
    if part != [] {
      assert part[|part| - 1] in es && part[0] in es;
    }
    if |es| == 2 {
      assert es[..1] == [es[0]];
      assert |part| == 2 ==> part == [part[0], part[1]] && es == [es[0], es[1]];
    } else if |es| == 1 {
      assert es == [es[0]];
    }
  }

  /** At the end of a run: in order means agreed, garbled means not. */
  lemma AgreesUnlessGarbled(s: Sys, id: Uuid)
    requires LogAgrees(s.ledger, id) && CommittedLaw(s, id) && EventsOf(s.outbox, id) == []
    ensures InOrder(s, id) ==> PublishedAgrees(s, id)
    ensures Garbled(s, id) ==> !PublishedAgrees(s, id)
  {
    if InOrder(s, id) {
      assert EventsOf(s.published, id) + [] == EventsOf(s.published, id);
    }
    if PublishedAgrees(s, id) {
      PartOfHistory(EventsOf(s.ledger.log, id), EventsOf(s.published, id));
    }
  }

  lemma StartupPublishes(id: Uuid)
    ensures InOrder(STARTUP, id) && PublicationLaw(STARTUP, id)
  {
  }

  /**
   * After every clean run from startup that leaves nothing of a purchase's to publish, its published events
   * agree with its stored status exactly when each was published in commit order and none was lost.
   */
  lemma PublishedAgreesIff(max: nat, steps: seq<Step>, id: Uuid)
    requires IsRun(STARTUP, max, steps) && IsCleanRun(STARTUP, max, steps)
    ensures EventsOf(RunSteps(STARTUP, max, steps).outbox, id) == [] ==>
      (PublishedAgrees(RunSteps(STARTUP, max, steps), id) <==> IsOrderlyRun(STARTUP, max, steps, id))
  {
    InitialIsConsistent();
    RunKeepsLedgerIff(STARTUP, max, steps);
    StartupPublishes(id);
    RunKeepsOrderIff(STARTUP, max, steps, id);
    var s := RunSteps(STARTUP, max, steps);
    assert LogAgrees(s.ledger, id);
    if EventsOf(s.outbox, id) == [] {
      AgreesUnlessGarbled(s, id);
    }
  }

  // ----- when nothing overtakes

  /** Nothing commits on the purchase while an event of its own is being published, and none is lost. */
  ghost predicate Prompt(s: Sys, step: Step, id: Uuid)
    requires Enabled(s, step)
  {
    && (EventsOf(Committed(s, step), id) != [] ==> EventsOf(s.outbox, id) == [])
    && (Lost(s, step).Some? ==> Lost(s, step).value.id != id)
  }

  ghost predicate IsPromptRun(s: Sys, max: nat, steps: seq<Step>, id: Uuid)
    requires IsRun(s, max, steps)
    decreases |steps|
  {
    steps == [] || (Prompt(s, steps[0], id) && IsPromptRun(Exec(s, max, steps[0]), max, steps[1..], id))
  }

  lemma PromptStepIsOrderly(s: Sys, max: nat, step: Step, id: Uuid)
    requires PostingLaw(s) && |EventsOf(s.outbox, id)| <= 1 && Enabled(s, step) && Prompt(s, step, id)
    ensures Orderly(s, step, id)
  {
    if Own(Delivered(s, step), id) {
      OwnDelivery(s, max, step, id);
    }
  }

  lemma EventsOfFew(es: seq<Event>, id: Uuid)
    requires |es| <= 1
    ensures |EventsOf(es, id)| <= 1
  {
    if es != [] {
      EventsOfOne(es[0], id);
      assert es == [es[0]];
    }
  }

  lemma PromptStepKeepsOne(s: Sys, max: nat, step: Step, id: Uuid)
    requires PostingLaw(s) && |EventsOf(s.outbox, id)| <= 1 && Enabled(s, step) && Prompt(s, step, id)
    ensures |EventsOf(Exec(s, max, step).outbox, id)| <= 1
  {
    if Own(Delivered(s, step), id) {
      OwnDelivery(s, max, step, id);
      WithoutMembers(EventsOf(s.outbox, id), Delivered(s, step).value);
    } else {
      OnlyCommits(s, max, step, id);
      StepMovesEvents(s, max, step);
      EventsOfFew(Committed(s, step), id);
    }
  }

  lemma {:induction false} PromptRunIsOrderly(s: Sys, max: nat, steps: seq<Step>, id: Uuid)
    requires PublicationLaw(s, id) && |EventsOf(s.outbox, id)| <= 1
    requires IsRun(s, max, steps) && IsPromptRun(s, max, steps, id)
    ensures IsOrderlyRun(s, max, steps, id)
    decreases |steps|
  {
    if steps == [] {
    } else {
      StepKeepsPublicationLaw(s, max, steps[0], id);
      PromptStepIsOrderly(s, max, steps[0], id);
      PromptStepKeepsOne(s, max, steps[0], id);
      PromptRunIsOrderly(Exec(s, max, steps[0]), max, steps[1..], id);
    }
  }

  // ----- a reversal overtakes a confirmation

  /** From a runner's commit point: it commits, an admin reverses the purchase, and the reversal is published first. */
  function Overtaking(id: Uuid): seq<Step> {
    [CommitSettlement(0)]
    + ([Operation(ReverseByAdmin(id))] + ([Announce(PurchaseReversed(id, Confirmed))] + [Publish(0)]))
  }

  lemma SafeStep(s: Sys, max: nat, step: Step, rest: seq<Step>)
    requires Enabled(s, step) && Undisturbed(s, step) && IsSafeRun(Exec(s, max, step), max, rest)
    ensures IsSafeRun(s, max, [step] + rest) && IsRun(s, max, [step] + rest) && IsRun(Exec(s, max, step), max, rest)
    ensures RunSteps(s, max, [step] + rest) == RunSteps(Exec(s, max, step), max, rest)
  {
    assert ([step] + rest)[1..] == rest;
    SafeRunIsRun(s, max, [step] + rest);
  }

  /** The purchase of task 0, which is publishing its confirmation. */
  function Crossing(id: Uuid, l: State, published: seq<Event>, outbox: seq<Event>): Sys {
    Sys(l, published, outbox, [], map[id := 0], map[0 := Runner(id, Publishing(PurchaseConfirmed(id)))], Idle, [id], {})
  }

  /** The runner's confirmation and the admin's reversal, as commits. */
  lemma ConfirmedThenReversed(s: State, id: Uuid)
    requires PendingIn(s.books, id)
    ensures var l := Commit(s, ConfirmByJob(id));
            && id in l.books.purchases && Guard(l.books, ReverseByAdmin(id)).None?
            && Published(l.books, ReverseByAdmin(id)) == [PurchaseReversed(id, Confirmed)]
            && id in Commit(l, ReverseByAdmin(id)).books.purchases
            && Commit(l, ReverseByAdmin(id)).books.purchases[id].status == Reversed
  {
    WriteFramesPurchases(s.books, ConfirmByJob(id), id);
    WriteFramesPurchases(Write(s.books, ConfirmByJob(id)), ReverseByAdmin(id), id);
  }

  lemma RunnerCommits(id: Uuid, req: Request, max: nat)
    requires PendingIn(Apply(INITIAL, Ingest(id, req)).books, id)
    ensures Exec(Running(id, req, Settling(true)), max, CommitSettlement(0))
         == Crossing(id, Commit(Apply(INITIAL, Ingest(id, req)), ConfirmByJob(id)), [], [PurchaseConfirmed(id)])
  {
  }

  lemma AdminReverses(id: Uuid, l: State, max: nat)
    requires Guard(l.books, ReverseByAdmin(id)).None?
    requires Published(l.books, ReverseByAdmin(id)) == [PurchaseReversed(id, Confirmed)]
    ensures Exec(Crossing(id, l, [], [PurchaseConfirmed(id)]), max, Operation(ReverseByAdmin(id)))
         == Crossing(id, Commit(l, ReverseByAdmin(id)), [], [PurchaseConfirmed(id), PurchaseReversed(id, Confirmed)])
  {
    assert [PurchaseConfirmed(id)] + [PurchaseReversed(id, Confirmed)]
        == [PurchaseConfirmed(id), PurchaseReversed(id, Confirmed)];
  }

  lemma ReversalIsAnnounced(id: Uuid, l: State, max: nat)
    ensures var s := Crossing(id, l, [], [PurchaseConfirmed(id), PurchaseReversed(id, Confirmed)]);
            && Enabled(s, Announce(PurchaseReversed(id, Confirmed)))
            && Exec(s, max, Announce(PurchaseReversed(id, Confirmed)))
               == Crossing(id, l, [PurchaseReversed(id, Confirmed)], [PurchaseConfirmed(id)])
  {
    WithoutHead(PurchaseConfirmed(id), [PurchaseReversed(id, Confirmed)], PurchaseReversed(id, Confirmed));
    assert [PurchaseConfirmed(id)] + [PurchaseReversed(id, Confirmed)]
        == [PurchaseConfirmed(id), PurchaseReversed(id, Confirmed)];
    assert [PurchaseConfirmed(id), PurchaseReversed(id, Confirmed)][1] == PurchaseReversed(id, Confirmed);
  }

  lemma ReversalFirstDisagrees(id: Uuid, s: Sys)
    requires s.published == [PurchaseReversed(id, Confirmed), PurchaseConfirmed(id)]
    ensures !PublishedAgrees(s, id)
  {
    EventsOfHead(PurchaseReversed(id, Confirmed), [PurchaseConfirmed(id)], id);
    EventsOfOne(PurchaseConfirmed(id), id);
    assert s.published == [PurchaseReversed(id, Confirmed)] + [PurchaseConfirmed(id)];
  }

  lemma ConfirmationFollows(id: Uuid, l: State, max: nat)
    ensures var s := Exec(Crossing(id, l, [PurchaseReversed(id, Confirmed)], [PurchaseConfirmed(id)]), max, Publish(0));
            && s.ledger == l && s.outbox == []
            && s.published == [PurchaseReversed(id, Confirmed), PurchaseConfirmed(id)]
            && !PublishedAgrees(s, id)
  {
    WithoutHead(PurchaseConfirmed(id), [], PurchaseConfirmed(id));
    assert [PurchaseReversed(id, Confirmed)] + [PurchaseConfirmed(id)]
        == [PurchaseReversed(id, Confirmed), PurchaseConfirmed(id)];
    ReversalFirstDisagrees(id,
      Exec(Crossing(id, l, [PurchaseReversed(id, Confirmed)], [PurchaseConfirmed(id)]), max, Publish(0)));
  }

  /** The reversal is announced, and the confirmation after it. */
  lemma LastTwoSteps(id: Uuid, l: State, max: nat)
    requires var s := Crossing(id, l, [], [PurchaseConfirmed(id), PurchaseReversed(id, Confirmed)]);
             && Enabled(s, Announce(PurchaseReversed(id, Confirmed)))
             && Exec(s, max, Announce(PurchaseReversed(id, Confirmed)))
                == Crossing(id, l, [PurchaseReversed(id, Confirmed)], [PurchaseConfirmed(id)])
    ensures var s := Crossing(id, l, [], [PurchaseConfirmed(id), PurchaseReversed(id, Confirmed)]);
            var steps := [Announce(PurchaseReversed(id, Confirmed))] + [Publish(0)];
            && IsSafeRun(s, max, steps) && IsRun(s, max, steps)
            && RunSteps(s, max, steps)
               == Exec(Crossing(id, l, [PurchaseReversed(id, Confirmed)], [PurchaseConfirmed(id)]), max, Publish(0))
  {
    var s := Crossing(id, l, [PurchaseReversed(id, Confirmed)], [PurchaseConfirmed(id)]);
    SafeStep(s, max, Publish(0), []);
    assert [Publish(0)] + [] == [Publish(0)];
    SafeStep(Crossing(id, l, [], [PurchaseConfirmed(id), PurchaseReversed(id, Confirmed)]), max,
      Announce(PurchaseReversed(id, Confirmed)), [Publish(0)]);
  }

  /** The runner is past its commit, so that the reversal disturbs nobody. */
  lemma ReversalIsUndisturbed(id: Uuid, l: State)
    ensures Undisturbed(Crossing(id, l, [], [PurchaseConfirmed(id)]), Operation(ReverseByAdmin(id)))
  {
  }

  lemma OvertakingSteps(id: Uuid, req: Request, max: nat, l1: State, l2: State, last: seq<Step>, end: Sys)
    requires PendingIn(Apply(INITIAL, Ingest(id, req)).books, id)
    requires Exec(Running(id, req, Settling(true)), max, CommitSettlement(0))
          == Crossing(id, l1, [], [PurchaseConfirmed(id)])
    requires Exec(Crossing(id, l1, [], [PurchaseConfirmed(id)]), max, Operation(ReverseByAdmin(id)))
          == Crossing(id, l2, [], [PurchaseConfirmed(id), PurchaseReversed(id, Confirmed)])
    requires var s2 := Crossing(id, l2, [], [PurchaseConfirmed(id), PurchaseReversed(id, Confirmed)]);
             IsSafeRun(s2, max, last) && IsRun(s2, max, last) && RunSteps(s2, max, last) == end
    ensures var s0, steps := Running(id, req, Settling(true)),
                             [CommitSettlement(0)] + ([Operation(ReverseByAdmin(id))] + last);
            IsSafeRun(s0, max, steps) && IsRun(s0, max, steps) && RunSteps(s0, max, steps) == end
  {
    var s1 := Crossing(id, l1, [], [PurchaseConfirmed(id)]);
    ReversalIsUndisturbed(id, l1);
    SafeStep(s1, max, Operation(ReverseByAdmin(id)), last);
    SafeStep(Running(id, req, Settling(true)), max, CommitSettlement(0), [Operation(ReverseByAdmin(id))] + last);
  }

  /** The two publications really can cross in a safe run, and the published events then fold to confirmed. */
  lemma OvertakingIsReachable(id: Uuid, req: Request, max: nat)
    requires max > 0 && Guard(INITIAL.books, Ingest(id, req)).None?
    ensures Leads(STARTUP, max, UpToCommit(id, req), Running(id, req, Settling(true)))
    ensures IsSafeRun(Running(id, req, Settling(true)), max, Overtaking(id))
    ensures IsRun(Running(id, req, Settling(true)), max, Overtaking(id))
    ensures var s := RunSteps(Running(id, req, Settling(true)), max, Overtaking(id));
            && s.outbox == [] && id in s.ledger.books.purchases && s.ledger.books.purchases[id].status == Reversed
            && s.published == [PurchaseReversed(id, Confirmed), PurchaseConfirmed(id)] && !PublishedAgrees(s, id)
  {
    CommitPointIsReachable(id, req, max);
    var l0 := Apply(INITIAL, Ingest(id, req));
    WriteFramesPurchases(INITIAL.books, Ingest(id, req), id);
    var l1 := Commit(l0, ConfirmByJob(id));
    ConfirmedThenReversed(l0, id);
    var l2 := Commit(l1, ReverseByAdmin(id));
    RunnerCommits(id, req, max);
    AdminReverses(id, l1, max);
    ReversalIsAnnounced(id, l2, max);
    ConfirmationFollows(id, l2, max);
    LastTwoSteps(id, l2, max);
    OvertakingSteps(id, req, max, l1, l2, [Announce(PurchaseReversed(id, Confirmed))] + [Publish(0)],
      Exec(Crossing(id, l2, [PurchaseReversed(id, Confirmed)], [PurchaseConfirmed(id)]), max, Publish(0)));
  }
}
