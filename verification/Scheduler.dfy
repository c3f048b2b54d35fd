/** The in-memory scheduler: registered tasks, and the event-loop tasks that run them in endless loops. */
module Scheduler {
  import opened Wrappers

  datatype Name = Name(text: string)

  datatype Registration = Registration(task: nat, interval: nat)

  datatype Error = KeyError

  /**
   * `loops` are the loops alive on the event loop, each with the name it was started under; `running` is
   * what the scheduler remembers of them.
   */
  datatype State = State(
    registered: map<Name, Registration>, running: map<Name, nat>, loops: map<nat, Name>, next: nat)

  /** Loop numbers are not reused, and no live loop has been forgotten; so no name has two live loops. */
  ghost predicate OneLoopEach(s: State) {
    && (forall l :: l in s.loops ==> l < s.next && s.loops[l] in s.running && s.running[s.loops[l]] == l)
    && (forall n :: n in s.running ==> s.running[n] < s.next)
  }

  /** The live loops of a name. */
  function LoopsOf(s: State, name: Name): set<nat> {
    set l | l in s.loops && s.loops[l] == name
  }

  /** Every name has at most one live loop. */
  ghost predicate NoTwoLoops(s: State) {
    forall name :: |LoopsOf(s, name)| <= 1
  }

  lemma AtMost(ls: set<nat>, l: nat)
    requires ls <= {l}
    ensures |ls| <= 1
  {
    assert ls == {} || ls == {l};
  }

  lemma AtLeastTwo(ls: set<nat>, l: nat, l': nat)
    requires l in ls && l' in ls && l != l'
    ensures |ls| >= 2
  {
    var rest := ls - {l, l'};
    assert ls == rest + {l, l'};
    assert |{l, l'}| == 2;
  }

  lemma OneLoopEachHasNoTwo(s: State)
    requires OneLoopEach(s)
    ensures NoTwoLoops(s)
  {
    forall name
      ensures |LoopsOf(s, name)| <= 1
    {
      AtMost(LoopsOf(s, name), if name in s.running then s.running[name] else 0);
    }
  }

  // ----- operations

  function Scheduled(s: State, name: Name, r: Registration): State {
    s.(registered := s.registered[name := r])
  }

  function Cancelled(s: State, name: Name): State {
    if name !in s.registered then s
    else if name !in s.running then s.(registered := s.registered - {name})
    else s.(registered := s.registered - {name}, running := s.running - {name}, loops := s.loops - {s.running[name]})
  }

  function StoppedAll(s: State): State {
    s.(running := map[], loops := map l | l in s.loops && l !in s.running.Values :: s.loops[l])
  }

  /** One new loop, whether or not the name already has one. */
  function StartedOne(s: State, name: Name): State {
    s.(running := s.running[name := s.next], loops := s.loops[s.next := name], next := s.next + 1)
  }

  /** The loops started for the first `n` names. */
  function StartedFirst(s: State, names: seq<Name>, n: nat): State
    requires n <= |names|
  {
    if n == 0 then s else StartedOne(StartedFirst(s, names, n - 1), names[n - 1])
  }

  /** The registered names, each once, in some order. */
  ghost predicate Lists(s: State, names: seq<Name>) {
    && (forall n :: n in names <==> n in s.registered)
    && (forall i, j :: 0 <= i < j < |names| ==> names[i] != names[j])
  }

  /** A loop whose task raised is gone, though the scheduler still remembers it. */
  function Died(s: State, l: nat): State {
    s.(loops := s.loops - {l})
  }

  lemma ScheduleCancelStopKeepOneLoop(s: State, name: Name, r: Registration, l: nat)
    requires OneLoopEach(s)
    ensures OneLoopEach(Died(s, l))
    ensures OneLoopEach(Scheduled(s, name, r)) && OneLoopEach(Cancelled(s, name)) && OneLoopEach(StoppedAll(s))
    ensures StoppedAll(s).loops == map[]
    ensures forall l :: l in Cancelled(s, name).loops ==> name in s.registered ==> s.loops[l] != name
  {
  }

  lemma {:induction false} StartedFirstRuns(s: State, names: seq<Name>, n: nat)
    requires n <= |names| && OneLoopEach(s)
    requires forall i, l :: 0 <= i < n && l in s.loops ==> s.loops[l] != names[i]
    requires forall i, j :: 0 <= i < j < n ==> names[i] != names[j]
    ensures OneLoopEach(StartedFirst(s, names, n))
    ensures forall l :: l in StartedFirst(s, names, n).loops ==>
      || (l in s.loops && StartedFirst(s, names, n).loops[l] == s.loops[l])
      || (exists i :: 0 <= i < n && names[i] == StartedFirst(s, names, n).loops[l])
  {
    if n == 0 {
    } else {
      StartedFirstRuns(s, names, n - 1);
    }
  }

  lemma {:induction false} StartedFirstKeepsLoops(s: State, names: seq<Name>, n: nat, l: nat)
    requires n <= |names| && l in s.loops && l < s.next
    ensures StartedFirst(s, names, n).next == s.next + n
    ensures l in StartedFirst(s, names, n).loops && StartedFirst(s, names, n).loops[l] == s.loops[l]
  {
    if n == 0 {
    } else {
      StartedFirstKeepsLoops(s, names, n - 1, l);
    }
  }

  lemma {:induction false} StartedFirstForgets(s: State, names: seq<Name>, n: nat, l: nat)
    requires n <= |names| && l in s.loops && l < s.next && s.loops[l] in names[..n]
    ensures StartedFirst(s, names, n).next == s.next + n
    ensures var s' := StartedFirst(s, names, n);
            l in s'.loops && s'.loops[l] == s.loops[l] && s.loops[l] in s'.running && s'.running[s.loops[l]] != l
    decreases n
  {
    StartedFirstKeepsLoops(s, names, n - 1, l);
    if s.loops[l] == names[n - 1] {
    } else {
      assert names[..n] == names[..n - 1] + [names[n - 1]];
      StartedFirstForgets(s, names, n - 1, l);
    }
  }

  lemma {:induction false} StartedFirstCounts(s: State, names: seq<Name>, n: nat)
    requires n <= |names|
    ensures StartedFirst(s, names, n).next == s.next + n
  {
    if n == 0 {
    } else {
      StartedFirstCounts(s, names, n - 1);
    }
  }

  /** Each name just started has its remembered loop alive. */
  lemma {:induction false} StartedFirstLives(s: State, names: seq<Name>, n: nat, i: nat)
    requires i < n <= |names| && forall i, j :: 0 <= i < j < n ==> names[i] != names[j]
    ensures var s' := StartedFirst(s, names, n);
            && s'.next == s.next + n && names[i] in s'.running && s'.running[names[i]] < s'.next
            && s'.running[names[i]] in s'.loops && s'.loops[s'.running[names[i]]] == names[i]
  {
    StartedFirstCounts(s, names, n - 1);
    if i == n - 1 {
    } else {
      StartedFirstLives(s, names, n - 1, i);
    }
  }

  lemma StartedTwice(s: State, names: seq<Name>, l: nat)
    requires OneLoopEach(s) && Lists(s, names) && l in s.loops && s.loops[l] in s.registered
    ensures |LoopsOf(StartedFirst(s, names, |names|), s.loops[l])| >= 2
  {
    var s' := StartedFirst(s, names, |names|);
    assert names[..|names|] == names;
    StartedFirstForgets(s, names, |names|, l);
    var i :| 0 <= i < |names| && names[i] == s.loops[l];
    StartedFirstLives(s, names, |names|, i);
    AtLeastTwo(LoopsOf(s', s.loops[l]), l, s'.running[names[i]]);
  }

  /**
   * Starting leaves every name with at most one live loop exactly when no registered name has one already;
   * otherwise the old loop is forgotten and runs beside the new one.
   */
  lemma StartKeepsOneLoopIff(s: State, names: seq<Name>)
    requires OneLoopEach(s) && Lists(s, names)
    ensures NoTwoLoops(StartedFirst(s, names, |names|)) <==> (forall l :: l in s.loops ==> s.loops[l] !in s.registered)
  {
    if forall l :: l in s.loops ==> s.loops[l] !in s.registered {
      assert forall i :: 0 <= i < |names| ==> names[i] in names;
      StartedFirstRuns(s, names, |names|);
      OneLoopEachHasNoTwo(StartedFirst(s, names, |names|));
    } else {
      var l :| l in s.loops && s.loops[l] in s.registered;
      StartedTwice(s, names, l);
    }
  }

  // ----- what the operations leave

  /** Scheduling registers the task under its name and changes nothing else. */
  lemma ScheduleRegisters(s: State, name: Name, r: Registration)
    ensures var s' := Scheduled(s, name, r);
            && (forall n :: n in s'.registered <==> n in s.registered || n == name)
            && (forall n :: n in s'.registered ==> s'.registered[n] == if n == name then r else s.registered[n])
            && s'.running == s.running && s'.loops == s.loops && s'.next == s.next
  {
  }

  /** Cancelling takes the name off the register and ends its remembered loop; nothing else changes. */
  lemma CancelUnregisters(s: State, name: Name)
    ensures var s' := Cancelled(s, name);
            && (forall n :: n in s'.registered <==> n in s.registered && n != name)
            && (forall n :: n in s'.registered ==> s'.registered[n] == s.registered[n])
            && (forall n :: n in s'.running <==> n in s.running && (n != name || name !in s.registered))
            && (forall n :: n in s'.running ==> s'.running[n] == s.running[n])
            && (forall l :: l in s'.loops
                  <==> l in s.loops && !(name in s.registered && name in s.running && l == s.running[name]))
            && (forall l :: l in s'.loops ==> s'.loops[l] == s.loops[l]) && s'.next == s.next
  {
  }

  /** A cancelled task is not run by any later start, unless it is scheduled again. */
  lemma CancelledIsNotStarted(s: State, name: Name, names: seq<Name>)
    requires Lists(Cancelled(s, name), names)
    ensures name !in names
  {
    CancelUnregisters(s, name);
  }

  /** Stopping ends and forgets the remembered loops; the tasks stay registered. */
  lemma StopEndsLoops(s: State)
    ensures var s' := StoppedAll(s);
            && s'.registered == s.registered && s'.running == map[] && s'.next == s.next
            && (forall l :: l in s'.loops <==> l in s.loops && !(exists n :: n in s.running && s.running[n] == l))
            && (forall l :: l in s'.loops ==> s'.loops[l] == s.loops[l])
  {
  }

  /** Starting adds one numbered loop per name and ends none. */
  lemma {:induction false} StartAddsLoops(s: State, names: seq<Name>, n: nat)
    requires n <= |names| && (forall l :: l in s.loops ==> l < s.next)
    ensures var s' := StartedFirst(s, names, n);
            && s'.registered == s.registered && s'.next == s.next + n
            && (forall l :: l in s'.loops <==> l in s.loops || s.next <= l < s.next + n)
            && (forall l :: l in s'.loops ==>
                  s'.loops[l] == if l < s.next then s.loops[l] else names[l - s.next])
  {
    if n == 0 {
    } else {
      StartAddsLoops(s, names, n - 1);
    }
  }

  /** The last loop started for a name is the one remembered of it; other names keep theirs. */
  lemma {:induction false} StartRemembers(s: State, names: seq<Name>, n: nat, name: Name)
    requires n <= |names| && forall i, j :: 0 <= i < j < n ==> names[i] != names[j]
    ensures var s' := StartedFirst(s, names, n);
            && (forall i :: 0 <= i < n && names[i] == name ==> name in s'.running && s'.running[name] == s.next + i)
            && ((forall i :: 0 <= i < n ==> names[i] != name) ==>
                  && (name in s'.running <==> name in s.running)
                  && (name in s.running ==> s'.running[name] == s.running[name]))
  {
    if n == 0 {
    } else {
      StartedFirstCounts(s, names, n - 1);
      StartRemembers(s, names, n - 1, name);
    }
  }

  // ----- starting again

  /** A new scheduler. */
  function Constructed(): State {
    State(map[], map[], map[], 0)
  }

  /** A new scheduler with one task, started `n` times. */
  function StartedTimes(name: Name, r: Registration, n: nat): State {
    if n == 0 then Scheduled(Constructed(), name, r) else StartedFirst(StartedTimes(name, r, n - 1), [name], 1)
  }

  lemma StartedOnlyOne(s: State, name: Name)
    ensures StartedFirst(s, [name], 1) == StartedOne(s, name)
  {
    assert StartedFirst(s, [name], 0) == s;
  }

  /** Starting again while running really happens to leave two loops: one per call. */
  lemma {:induction false} StartingAgainAddsLoops(name: Name, r: Registration, n: nat)
    ensures Lists(StartedTimes(name, r, n), [name])
    ensures StartedTimes(name, r, n).next == n
    ensures forall l :: l in StartedTimes(name, r, n).loops <==> 0 <= l < n
    ensures |LoopsOf(StartedTimes(name, r, n), name)| == n
  {
    if n == 0 {
      assert LoopsOf(StartedTimes(name, r, 0), name) == {};
    } else {
      StartingAgainAddsLoops(name, r, n - 1);
      StartedOnlyOne(StartedTimes(name, r, n - 1), name);
      assert LoopsOf(StartedTimes(name, r, n), name) == LoopsOf(StartedTimes(name, r, n - 1), name) + {n - 1};
    }
  }

  lemma {:induction false} StartedFirstOfPrefix(s: State, names: seq<Name>, name: Name, n: nat)
    requires n <= |names|
    ensures StartedFirst(s, names + [name], n) == StartedFirst(s, names, n)
  {
    if n == 0 {
    } else {
      StartedFirstOfPrefix(s, names, name, n - 1);
    }
  }

  // ----- the class

  class InMemoryTaskScheduler {
    var registered: map<Name, Registration>
    var running: map<Name, nat>
    /** The event loop's side. */
    var loops: map<nat, Name>
    var next: nat

    constructor ()
      ensures Current() == State(map[], map[], map[], 0) && OneLoopEach(Current())
    {
      registered, running, loops, next := map[], map[], map[], 0;
    }

    ghost function Current(): State
      reads this
    {
      State(registered, running, loops, next)
    }

    method Schedule(name: Name, task: nat, interval: nat)
      modifies this
      ensures Current() == Scheduled(old(Current()), name, Registration(task, interval))
    {
      registered := registered[name := Registration(task, interval)];
    }

    method Cancel(name: Name) returns (a: Attempt<Error>)
      modifies this
      ensures Current() == Cancelled(old(Current()), name)
      ensures a.Raised? <==> name !in old(registered)
    {
      if name !in registered {
        return Raised(KeyError);
      }
      registered := registered - {name};
      if name in running {
        loops := loops - {running[name]};
        running := running - {name};
      }
      return Done;
    }

    /** Creates the loop's task, whether or not the name already has one. */
    method StartLoop(name: Name)
      modifies this
      ensures Current() == StartedOne(old(Current()), name)
    {
      running := running[name := next];
      loops := loops[next := name];
      next := next + 1;
    }

    method Start() returns (ghost names: seq<Name>)
      modifies this
      ensures Lists(old(Current()), names)
      ensures Current() == StartedFirst(old(Current()), names, |names|)
    {
      names := [];
      var rest := registered.Keys;
      while rest != {}
        invariant rest <= old(registered).Keys
        invariant forall n :: n in names <==> n in old(registered) && n !in rest
        invariant forall i, j :: 0 <= i < j < |names| ==> names[i] != names[j]
        invariant Current() == StartedFirst(old(Current()), names, |names|)
        decreases rest
      {
        var name :| name in rest;
        assert forall i :: 0 <= i < |names| ==> names[i] in names;
        StartedFirstOfPrefix(old(Current()), names, name, |names|);
        StartLoop(name);
        names := names + [name];
        rest := rest - {name};
      }
    }

    method Stop()
      modifies this
      ensures Current() == StoppedAll(old(Current()))
    {
      loops := map l | l in loops && l !in running.Values :: loops[l];
      running := map[];
    }
  }
}
