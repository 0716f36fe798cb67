/**
 * The bounded-parallel task processor of the connector: a bounded channel, one loop that takes tasks off it,
 * a semaphore of `maxParallel` permits and a wait group. Tasks are numbered in the order they are triggered.
 * On shutdown the loop drains the channel and waits for what is running.
 */
module TaskProcessor {
  import opened Records

  datatype Phase = Looping | Draining | Waiting | Returned

  datatype State = State(
    cacheSize: nat,
    maxParallel: nat,
    triggered: nat,        // tasks put on the channel so far
    queue: seq<nat>,       // the channel
    hand: Option<nat>,     // taken off the channel, waiting for a permit
    running: set<nat>,     // with a permit
    ending: set<nat>,      // permit released, wg.Done to come
    finished: set<nat>,
    dropped: set<nat>,     // no permit before the deadline
    permits: nat,
    wg: nat,
    left: seq<nat>,        // how many tasks each running task has yet to trigger itself
    drained: nat,          // how many were triggered when the drain found the channel empty
    phase: Phase)

  function New(cacheSize: nat, maxParallel: nat): State {
    State(cacheSize, maxParallel, 0, [], None, {}, {}, {}, {}, 0, 0, [], 0, Looping)
  }

  datatype Action =
    | Trigger(caller: Option<nat>)   // by a running task, or from outside
    | Read
    | Acquired(triggers: nat)    // a pull of a device triggers a task for each of its resources
    | AcquireFails
    | ReleasePermit(t: nat)
    | WgDone(t: nat)
    | ContextDone
    | ChannelEmpty
    | Return

  function Step(s: State, a: Action): Option<State> {
    match a
    case Trigger(caller) =>  // blocks while the channel is full
      if |s.queue| < s.cacheSize && (caller.Some? ==> caller.value in s.running && caller.value < |s.left| && s.left[caller.value] > 0) then
        var left := if caller.Some? then s.left[caller.value := s.left[caller.value] - 1] else s.left;
        Some(s.(queue := s.queue + [s.triggered], triggered := s.triggered + 1, left := left + [0]))
      else None
    case Read =>
      if (s.phase == Looping || s.phase == Draining) && s.hand.None? && s.queue != [] then
        Some(s.(hand := Some(s.queue[0]), queue := s.queue[1..]))
      else None
    case Acquired(triggers) =>
      if s.hand.Some? && s.permits < s.maxParallel && s.hand.value < |s.left| then
        Some(s.(hand := None, permits := s.permits + 1, wg := s.wg + 1, running := s.running + {s.hand.value},
                left := s.left[s.hand.value := triggers]))
      else None
    case AcquireFails =>
      if s.hand.Some? then Some(s.(hand := None, dropped := s.dropped + {s.hand.value})) else None
    case ReleasePermit(t) =>
      if t in s.running && s.permits > 0 && (t < |s.left| ==> s.left[t] == 0) then
        Some(s.(running := s.running - {t}, ending := s.ending + {t}, permits := s.permits - 1))
      else None
    case WgDone(t) =>
      if t in s.ending && s.wg > 0 then
        Some(s.(ending := s.ending - {t}, finished := s.finished + {t}, wg := s.wg - 1))
      else None
    case ContextDone =>
      if s.phase == Looping && s.hand.None? then Some(s.(phase := Draining)) else None
    case ChannelEmpty =>
      if s.phase == Draining && s.hand.None? && s.queue == [] then Some(s.(phase := Waiting, drained := s.triggered)) else None
    case Return =>
      if s.phase == Waiting && s.wg == 0 then Some(s.(phase := Returned)) else None
  }

  function Exec(s: State, acts: seq<Action>): Option<State>
    decreases |acts|
  {
    if acts == [] then Some(s)
    else
      match Step(s, acts[0])
      case None => None
      case Some(s') => Exec(s', acts[1..])
  }

  // ---- The invariant ---------------------------------------------------------------------------------

  // Tasks leave the channel in the order they were put on it: `Taken` is how many have left.
  function Taken(s: State): int { s.triggered - |s.queue| }

  ghost predicate ChannelOk(s: State) {
    && |s.queue| <= s.triggered && |s.queue| <= s.cacheSize
    && (forall i :: 0 <= i < |s.queue| ==> s.queue[i] == Taken(s) + i)
    && (s.hand.Some? ==> s.hand.value == Taken(s) - 1)
  }

  // In how many places off the channel a task is.
  function Placed(s: State, t: nat): nat {
    (if s.hand == Some(t) then 1 else 0) + (if t in s.running then 1 else 0) + (if t in s.ending then 1 else 0)
    + (if t in s.finished then 1 else 0) + (if t in s.dropped then 1 else 0)
  }

  // Every task that left the channel is in exactly one place.
  ghost predicate Conserved(s: State) {
    forall t: nat :: Placed(s, t) == if t < Taken(s) then 1 else 0
  }

  ghost predicate Counted(s: State) {
    s.permits == |s.running| <= s.maxParallel && s.wg == |s.running| + |s.ending|
  }

  ghost predicate PhaseOk(s: State) {
    && (s.phase == Waiting || s.phase == Returned ==> s.hand.None? && s.drained <= Taken(s))
    && (s.phase == Returned ==> s.wg == 0)
  }

  // Only running tasks have tasks to trigger.
  ghost predicate LeftOk(s: State) {
    && |s.left| == s.triggered
    && (forall t :: 0 <= t < |s.left| && s.left[t] > 0 ==> t in s.running)
    && (forall t :: t in s.running ==> t < |s.left|)
  }

  ghost predicate Inv(s: State) {
    ChannelOk(s) && Conserved(s) && Counted(s) && PhaseOk(s) && LeftOk(s)
  }

  lemma StepKeepsInv(s: State, a: Action)
    requires Inv(s) && Step(s, a).Some?
    ensures Inv(Step(s, a).value)
    ensures Step(s, a).value.maxParallel == s.maxParallel && Step(s, a).value.cacheSize == s.cacheSize
  {
    hide ChannelOk, Conserved, Counted, LeftOk;
    ConservedKept(s, a);
    CountsKept(s, a);
    ChannelKept(s, a);
    LeftKept(s, a);
    assert s.phase == Waiting || s.phase == Returned ==> Taken(Step(s, a).value) == Taken(s);
  }

  lemma ChannelKept(s: State, a: Action)
    requires ChannelOk(s) && Step(s, a).Some?
    ensures ChannelOk(Step(s, a).value)
  {
    var s' := Step(s, a).value;
    assert Taken(s') == if a.Read? then Taken(s) + 1 else Taken(s);
  }

  lemma LeftKept(s: State, a: Action)
    requires LeftOk(s) && Step(s, a).Some?
    ensures LeftOk(Step(s, a).value)
  {
  }

  lemma ConservedKept(s: State, a: Action)
    requires ChannelOk(s) && Conserved(s) && Step(s, a).Some?
    ensures Conserved(Step(s, a).value)
  {
    var s' := Step(s, a).value;
    forall t: nat ensures Placed(s', t) == if t < Taken(s') then 1 else 0 {
      assert Placed(s, t) == if t < Taken(s) then 1 else 0;
      assert a.Read? ==> s.queue[0] == Taken(s);
    }
  }

  lemma OnePlaceOnly(s: State, t: nat)
    requires Conserved(s)
    ensures s.hand == Some(t) ==> t !in s.running
    ensures t in s.running ==> t !in s.ending
  {
    assert Placed(s, t) <= 1;
  }

  lemma CountsKept(s: State, a: Action)
    requires Conserved(s) && Counted(s) && Step(s, a).Some?
    ensures Counted(Step(s, a).value)
  {
    hide Conserved;
    match a
    case Acquired(_) => OnePlaceOnly(s, s.hand.value);
    case ReleasePermit(t) => OnePlaceOnly(s, t);
    case _ =>
  }

  lemma {:induction false} ExecKeepsInv(s: State, acts: seq<Action>)
    requires Inv(s) && Exec(s, acts).Some?
    ensures Inv(Exec(s, acts).value)
    ensures Exec(s, acts).value.maxParallel == s.maxParallel && Exec(s, acts).value.cacheSize == s.cacheSize
    decreases |acts|
  {
    if acts != [] {
      StepKeepsInv(s, acts[0]);
      ExecKeepsInv(Step(s, acts[0]).value, acts[1..]);
    }
  }

  // ---- Results ---------------------------------------------------------------------------------------

  predicate Queued(s: State, t: nat) { t in s.queue }

  function Places(s: State, t: nat): nat {
    (if Queued(s, t) then 1 else 0) + Placed(s, t)
  }

  lemma QueuedRange(s: State, t: nat)
    requires ChannelOk(s)
    ensures Queued(s, t) <==> Taken(s) <= t < s.triggered
  {
    if Taken(s) <= t < s.triggered {
      assert s.queue[t - Taken(s)] == t;
    }
  }

  // Main result: in every reachable state each triggered task is in exactly one place, no more than
  // maxParallel tasks run, and the permits held are those of the running tasks.
  lemma TasksAreConserved(cacheSize: nat, maxParallel: nat, acts: seq<Action>, t: nat)
    requires Exec(New(cacheSize, maxParallel), acts).Some?
    ensures var s := Exec(New(cacheSize, maxParallel), acts).value;
            && Places(s, t) == (if t < s.triggered then 1 else 0)
            && |s.running| <= maxParallel && s.permits == |s.running|
  {
    ExecKeepsInv(New(cacheSize, maxParallel), acts);
    QueuedRange(Exec(New(cacheSize, maxParallel), acts).value, t);
  }

  // When Run returns nothing is running, and every task triggered before the drain found the channel empty
  // has finished or was dropped; only tasks triggered after that are still on the channel.
  lemma NothingRunsAfterReturn(cacheSize: nat, maxParallel: nat, acts: seq<Action>)
    requires Exec(New(cacheSize, maxParallel), acts).Some?
    requires Exec(New(cacheSize, maxParallel), acts).value.phase == Returned
    ensures var s := Exec(New(cacheSize, maxParallel), acts).value;
            && s.running == {} && s.ending == {} && s.hand.None? && s.permits == 0
            && (forall t: nat :: t < s.drained ==> t in s.finished || t in s.dropped)
            && (forall t: nat :: t in s.queue ==> s.drained <= t)
  {
    ExecKeepsInv(New(cacheSize, maxParallel), acts);
    var s := Exec(New(cacheSize, maxParallel), acts).value;
    assert |s.running| == 0 && |s.ending| == 0;
    forall t: nat | t < s.drained ensures t in s.finished || t in s.dropped {
      assert Placed(s, t) == 1;
    }
  }

  // Tasks are dispatched first come, first served: with a task in hand, all earlier ones have been dispatched
  // and all later ones are still on the channel.
  lemma DispatchedInOrder(cacheSize: nat, maxParallel: nat, acts: seq<Action>, t: nat)
    requires Exec(New(cacheSize, maxParallel), acts).Some?
    requires Exec(New(cacheSize, maxParallel), acts).value.hand.Some?
    ensures var s := Exec(New(cacheSize, maxParallel), acts).value;
            var h := s.hand.value;
            && (t < h ==> t in s.running + s.ending + s.finished + s.dropped)
            && (h < t < s.triggered ==> Queued(s, t))
  {
    ExecKeepsInv(New(cacheSize, maxParallel), acts);
    var s := Exec(New(cacheSize, maxParallel), acts).value;
    QueuedRange(s, t);
    assert Placed(s, t) == if t < Taken(s) then 1 else 0;
  }

  // ---- Whether Run returns ---------------------------------------------------------------------------

  // How many tasks the running tasks have yet to trigger.
  function Sum(left: seq<nat>): nat {
    if left == [] then 0 else Sum(left[..|left| - 1]) + left[|left| - 1]
  }

  function Owed(s: State): nat { Sum(s.left) }

  lemma {:induction false} SumUpdate(left: seq<nat>, i: nat, n: nat)
    requires i < |left|
    ensures Sum(left[i := n]) == Sum(left) - left[i] + n && left[i] <= Sum(left)
  {
    var k := |left| - 1;
    if i < k {
      assert left[i := n][..k] == left[..k][i := n];
      SumUpdate(left[..k], i, n);
    } else {
      assert left[i := n][..k] == left[..k];
    }
  }

  lemma {:induction false} SumZero(left: seq<nat>)
    requires forall i :: 0 <= i < |left| ==> left[i] == 0
    ensures Sum(left) == 0
  {
    if left != [] {
      SumZero(left[..|left| - 1]);
    }
  }

  lemma OwedAfterTrigger(s: State, caller: Option<nat>)
    requires Step(s, Trigger(caller)).Some?
    ensures Owed(Step(s, Trigger(caller)).value) == Owed(s) - if caller.Some? then 1 else 0
  {
    var s' := Step(s, Trigger(caller)).value;
    assert s'.left[..|s'.left| - 1] == if caller.Some? then s.left[caller.value := s.left[caller.value] - 1] else s.left;
    if caller.Some? {
      SumUpdate(s.left, caller.value, s.left[caller.value] - 1);
    }
  }

  // What the channel will have to hold once the loop has stopped reading: what is on it and what the running
  // tasks will put on it.
  function Load(s: State): nat { |s.queue| + Owed(s) }

  // After the drain the load never falls, and only triggers from outside raise it.
  lemma LoadWhileWaiting(s: State, a: Action)
    requires (s.phase == Waiting || s.phase == Returned) && s.hand.None? && Step(s, a).Some?
    ensures var s' := Step(s, a).value;
            && (s'.phase == Waiting || s'.phase == Returned) && s'.hand.None?
            && Load(s') == Load(s) + if a == Trigger(None) then 1 else 0
  {
    if a.Trigger? {
      OwedAfterTrigger(s, a.caller);
    }
  }

  lemma {:induction false} LoadNeverFalls(s: State, acts: seq<Action>)
    requires Inv(s) && (s.phase == Waiting || s.phase == Returned) && Exec(s, acts).Some?
    ensures Load(s) <= Load(Exec(s, acts).value) && Exec(s, acts).value.hand.None?
    decreases |acts|
  {
    if acts != [] {
      LoadWhileWaiting(s, acts[0]);
      StepKeepsInv(s, acts[0]);
      LoadNeverFalls(Step(s, acts[0]).value, acts[1..]);
    }
  }

  ghost predicate CanReturn(s: State) {
    exists acts :: Returns(s, acts)
  }

  ghost predicate Returns(s: State, acts: seq<Action>) {
    Exec(s, acts).Some? && Exec(s, acts).value.phase == Returned
  }

  lemma ReturnAfter(s: State, a: Action)
    requires Step(s, a).Some? && CanReturn(Step(s, a).value)
    ensures CanReturn(s)
  {
    var acts :| Returns(Step(s, a).value, acts);
    assert Returns(s, [a] + acts);
  }

  lemma NonEmptyHasSize(s: set<nat>, t: nat)
    requires t in s
    ensures |s| > 0 && |s - {t}| == |s| - 1
  {
  }

  // With all tasks at rest the wait group is empty and nothing is owed.
  lemma AtRest(s: State)
    requires Inv(s) && s.running == {} && s.ending == {}
    ensures s.wg == 0 && Owed(s) == 0
  {
    SumZero(s.left);
  }

  // One step that brings the tasks at work nearer to their end, while the channel has room for what they owe.
  function Remaining(s: State): nat { Owed(s) + 2 * |s.running| + |s.ending| }

  lemma TaskProgress(s: State) returns (a: Action)
    requires Inv(s) && (s.running != {} || s.ending != {}) && (Owed(s) > 0 ==> |s.queue| < s.cacheSize)
    ensures Step(s, a).Some? && (a.WgDone? || a.ReleasePermit? || (a.Trigger? && a.caller.Some?))
    ensures Remaining(Step(s, a).value) < Remaining(s)
  {
    if s.ending != {} {
      var t :| t in s.ending;
      NonEmptyHasSize(s.ending, t);
      a := WgDone(t);
    } else {
      var t :| t in s.running;
      NonEmptyHasSize(s.running, t);
      if s.left[t] > 0 {
        SumUpdate(s.left, t, 0);
        a := Trigger(Some(t));
        OwedAfterTrigger(s, Some(t));
      } else {
        assert t !in s.ending;
        a := ReleasePermit(t);
      }
    }
  }

  lemma {:induction false} WaitingReturns(s: State)
    requires Inv(s) && s.phase == Waiting && Load(s) <= s.cacheSize
    ensures CanReturn(s)
    decreases Remaining(s)
  {
    if s.running == {} && s.ending == {} {
      AtRest(s);
      assert Returns(s, [Return]);
    } else {
      var a := TaskProgress(s);
      LoadWhileWaiting(s, a);
      StepKeepsInv(s, a);
      WaitingReturns(Step(s, a).value);
      ReturnAfter(s, a);
    }
  }

  // While the loop still reads it can drop what it finds and so make room for the running tasks.
  lemma {:induction false} DrainingReturns(s: State)
    requires Inv(s) && (s.phase == Looping || s.phase == Draining) && s.cacheSize > 0
    ensures CanReturn(s)
    decreases Remaining(s), |s.queue|, if s.hand.Some? then 1 else 0, if s.phase == Looping then 1 else 0
  {
    var a: Action;
    if s.hand.Some? {
      a := AcquireFails;
    } else if s.phase == Looping {
      a := ContextDone;
    } else if s.queue != [] {
      a := Read;
    } else if s.running == {} && s.ending == {} {
      a := ChannelEmpty;
      AtRest(s);
      StepKeepsInv(s, a);
      WaitingReturns(Step(s, a).value);
      ReturnAfter(s, a);
      return;
    } else {
      a := TaskProgress(s);
    }
    StepKeepsInv(s, a);
    DrainingReturns(Step(s, a).value);
    ReturnAfter(s, a);
  }

  // Main result: Run can still return as long as the loop reads; from the moment the drain has found the
  // channel empty it can exactly if the channel has room for all the tasks that running tasks will trigger.
  // Otherwise one of them blocks for good and Run waits for it.
  lemma ReturnsExactlyIfItFits(s: State)
    requires Inv(s) && s.cacheSize > 0
    ensures CanReturn(s) <==> (s.phase == Waiting ==> Load(s) <= s.cacheSize)
  {
    match s.phase
    case Looping => DrainingReturns(s);
    case Draining => DrainingReturns(s);
    case Returned => assert Returns(s, []);
    case Waiting =>
      if CanReturn(s) {
        var acts :| Returns(s, acts);
        LoadNeverFalls(s, acts);
        ExecKeepsInv(s, acts);
        AtRest(Exec(s, acts).value);
      }
      if Load(s) <= s.cacheSize {
        WaitingReturns(s);
      }
  }

  lemma ExecNothing(s: State)
    ensures Exec(s, []) == Some(s)
  {
  }

  // ---- Every run, not only some ----------------------------------------------------------------------

  // Nobody outside triggers anything.
  predicate Inside(acts: seq<Action>) { forall i :: 0 <= i < |acts| ==> acts[i] != Trigger(None) }

  // A task at work is in one place only.
  lemma InOnePlace(s: State, t: nat)
    requires Inv(s) && t in s.running
    ensures t !in s.ending
  {
    assert Placed(s, t) <= 1;
  }

  lemma TaskStepCounts(s: State, a: Action)
    requires Inv(s) && Step(s, a).Some? && (a.WgDone? || a.ReleasePermit? || (a.Trigger? && a.caller.Some?))
    ensures Remaining(Step(s, a).value) == Remaining(s) - 1 && Step(s, a).value.phase == s.phase
  {
    hide Inv, Sum;
    match a
    case Trigger(caller) => OwedAfterTrigger(s, caller);
    case ReleasePermit(t) =>
      NonEmptyHasSize(s.running, t);
      InOnePlace(s, t);
    case WgDone(t) => NonEmptyHasSize(s.ending, t);
  }

  // After the drain each step of the processor itself brings it one nearer to its end.
  lemma EachStepCounts(s: State, a: Action)
    requires Inv(s) && s.phase == Waiting && Step(s, a).Some? && a != Trigger(None)
    ensures var s' := Step(s, a).value;
            && (a == Return <==> s'.phase == Returned) && (a == Return ==> Remaining(s) == 0)
            && (a != Return ==> s'.phase == Waiting && Remaining(s') == Remaining(s) - 1)
  {
    hide ChannelOk, Conserved, LeftOk, Remaining;
    if a == Return {
      NothingRemains(s);
    } else {
      TaskStepCounts(s, a);
    }
  }

  lemma NothingRemains(s: State)
    requires Inv(s) && s.wg == 0
    ensures Remaining(s) == 0
  {
    assert |s.running| == 0 && |s.ending| == 0;
    AtRest(s);
  }

  // Once it has returned there is nothing left for it to do.
  lemma NothingAfterReturn(s: State, a: Action)
    requires Inv(s) && s.phase == Returned && a != Trigger(None)
    ensures Step(s, a).None?
  {
    assert |s.running| == 0 && |s.ending| == 0;
  }

  // Main result: if the channel has room, Run returns in every run in which nobody outside triggers anything
  // after the drain: each such run goes on until it returns, and that takes one step for each task owed and
  // ending and two for each running, and the return.
  lemma {:induction false} EveryRunReturns(s: State, acts: seq<Action>)
    requires Inv(s) && s.phase == Waiting && Load(s) <= s.cacheSize && Exec(s, acts).Some? && Inside(acts)
    ensures var t := Exec(s, acts).value;
            && |acts| <= Remaining(s) + 1
            && (|acts| == Remaining(s) + 1 <==> t.phase == Returned)
            && (t.phase != Returned ==> exists a :: a != Trigger(None) && Step(t, a).Some?)
    decreases |acts|
  {
    if acts == [] {
      if s.running == {} && s.ending == {} {
        AtRest(s);
        assert Step(s, Return).Some?;
      } else {
        var a := TaskProgress(s);
      }
    } else {
      var a, rest := acts[0], acts[1..];
      assert a != Trigger(None) && Inside(rest);
      EachStepCounts(s, a);
      StepKeepsInv(s, a);
      var s' := Step(s, a).value;
      if a == Return {
        if rest != [] {
          NothingAfterReturn(s', rest[0]);
        }
      } else {
        LoadWhileWaiting(s, a);
        EveryRunReturns(s', rest);
      }
    }
  }

  // ---- A bound on what a task triggers ---------------------------------------------------------------

  // No task triggers more than `most` others, and nobody outside triggers any after the drain, unless `outside`.
  ghost predicate Bounded(s: State, acts: seq<Action>, most: nat, outside: bool)
    decreases |acts|
  {
    acts != [] ==>
      && (acts[0].Acquired? ==> acts[0].triggers <= most)
      && (acts[0] == Trigger(None) ==> outside || s.phase == Looping || s.phase == Draining)
      && Step(s, acts[0]).Some? && Bounded(Step(s, acts[0]).value, acts[1..], most, outside)
  }

  ghost predicate BoundedInv(s: State, most: nat, outside: bool) {
    && (forall t :: 0 <= t < |s.left| ==> s.left[t] <= most)
    && (!outside && (s.phase == Waiting || s.phase == Returned) ==> Load(s) <= s.maxParallel * most)
  }

  lemma {:induction false} SumBound(left: seq<nat>, running: set<nat>, most: nat)
    requires forall t :: 0 <= t < |left| ==> left[t] <= most && (left[t] > 0 ==> t in running)
    ensures Sum(left) <= |running| * most
  {
    if left == [] {
      assert |running| * most >= 0;
    } else {
      var n := |left| - 1;
      if left[n] == 0 {
        SumBound(left[..n], running, most);
      } else {
        SumBound(left[..n], running - {n}, most);
        assert (|running| - 1) * most + most == |running| * most;
      }
    }
  }

  lemma OwedIsBounded(s: State, most: nat)
    requires Inv(s) && forall t :: 0 <= t < |s.left| ==> s.left[t] <= most
    ensures Owed(s) <= s.maxParallel * most
  {
    hide ChannelOk, Conserved, PhaseOk;
    SumBound(s.left, s.running, most);
    TimesMonotone(|s.running|, s.maxParallel, most);
  }

  lemma TimesMonotone(a: nat, b: nat, n: nat)
    requires a <= b
    ensures a * n <= b * n
  {
  }

  lemma StepKeepsBound(s: State, a: Action, most: nat, outside: bool)
    requires Inv(s) && BoundedInv(s, most, outside) && Step(s, a).Some?
    requires a.Acquired? ==> a.triggers <= most
    requires a == Trigger(None) ==> outside || s.phase == Looping || s.phase == Draining
    ensures BoundedInv(Step(s, a).value, most, outside)
  {
    if s.phase == Waiting || s.phase == Returned {
      LoadWhileWaiting(s, a);
    } else if a == ChannelEmpty {
      OwedIsBounded(s, most);
    }
  }

  lemma {:induction false} RunKeepsBound(s: State, acts: seq<Action>, most: nat, outside: bool)
    requires Inv(s) && BoundedInv(s, most, outside) && Bounded(s, acts, most, outside)
    ensures Exec(s, acts).Some? && Inv(Exec(s, acts).value) && BoundedInv(Exec(s, acts).value, most, outside)
    ensures Exec(s, acts).value.maxParallel == s.maxParallel && Exec(s, acts).value.cacheSize == s.cacheSize
    decreases |acts|
  {
    hide Inv, BoundedInv, Step;
    if acts != [] {
      StepKeepsInv(s, acts[0]);
      StepKeepsBound(s, acts[0], most, outside);
      RunKeepsBound(Step(s, acts[0]).value, acts[1..], most, outside);
    }
  }

  lemma ExecFirst(s: State, a: Action, rest: seq<Action>)
    requires Step(s, a).Some?
    ensures Exec(s, [a] + rest) == Exec(Step(s, a).value, rest)
  {
    assert ([a] + rest)[1..] == rest;
  }

  lemma BoundedFirst(s: State, a: Action, rest: seq<Action>, most: nat, outside: bool)
    requires Step(s, a).Some? && Bounded(Step(s, a).value, rest, most, outside)
    requires (a.Acquired? ==> a.triggers <= most) && (a == Trigger(None) ==> outside || s.phase == Looping || s.phase == Draining)
    ensures Bounded(s, [a] + rest, most, outside)
  {
    assert ([a] + rest)[1..] == rest;
  }

  // Triggers from outside fill the channel.
  lemma {:induction false} FillChannel(s: State, most: nat) returns (acts: seq<Action>)
    requires Inv(s) && s.phase == Waiting
    ensures Bounded(s, acts, most, true) && Exec(s, acts).Some?
    ensures var t := Exec(s, acts).value;
            t.phase == Waiting && t.cacheSize == s.cacheSize && Load(t) == s.cacheSize + Owed(s)
    decreases s.cacheSize - |s.queue|
  {
    if |s.queue| == s.cacheSize {
      acts := [];
    } else {
      QueueFits(s);
      OwedAfterTrigger(s, None);
      StepKeepsInv(s, Trigger(None));
      var rest := FillChannel(Step(s, Trigger(None)).value, most);
      acts := [Trigger(None)] + rest;
      ExecFirst(s, Trigger(None), rest);
      BoundedFirst(s, Trigger(None), rest, most, true);
    }
  }

  lemma QueueFits(s: State)
    requires Inv(s)
    ensures |s.queue| <= s.cacheSize
  {
  }

  // The worst case: as many tasks as may run at once, each with `most` tasks to trigger, when the drain ends;
  // and then, if that may be, the channel filled from outside.
  lemma {:induction false} WorstDrain(s: State, most: nat, outside: bool) returns (acts: seq<Action>)
    requires Inv(s) && s.cacheSize > 0 && s.phase == Looping && s.hand.None? && s.queue == [] && s.ending == {}
    requires Owed(s) == |s.running| * most
    ensures Bounded(s, acts, most, outside) && Exec(s, acts).Some?
    ensures var t := Exec(s, acts).value;
            t.phase == Waiting && t.cacheSize == s.cacheSize && Load(t) == s.maxParallel * most + if outside then s.cacheSize else 0
    decreases s.maxParallel - |s.running|
  {
    if |s.running| == s.maxParallel {
      acts := DrainAndFill(s, most, outside);
    } else {
      PermitsHeld(s);
      var s3 := OneMoreRunning(s, most);
      var rest := WorstDrain(s3, most, outside);
      var s1 := Step(s, Trigger(None)).value;
      var s2 := Step(s1, Read).value;
      acts := [Trigger(None)] + ([Read] + ([Acquired(most)] + rest));
      ExecFirst(s2, Acquired(most), rest);
      ExecFirst(s1, Read, [Acquired(most)] + rest);
      ExecFirst(s, Trigger(None), [Read] + ([Acquired(most)] + rest));
      BoundedFirst(s2, Acquired(most), rest, most, outside);
      BoundedFirst(s1, Read, [Acquired(most)] + rest, most, outside);
      BoundedFirst(s, Trigger(None), [Read] + ([Acquired(most)] + rest), most, outside);
    }
  }

  lemma DrainAndFill(s: State, most: nat, outside: bool) returns (acts: seq<Action>)
    requires Inv(s) && s.phase == Looping && s.hand.None? && s.queue == []
    ensures Bounded(s, acts, most, outside) && Exec(s, acts).Some?
    ensures var t := Exec(s, acts).value;
            t.phase == Waiting && t.cacheSize == s.cacheSize && Load(t) == Owed(s) + if outside then s.cacheSize else 0
  {
    hide Inv;
    var s1 := Step(s, ContextDone).value;
    StepKeepsInv(s, ContextDone);
    var s2 := Step(s1, ChannelEmpty).value;
    StepKeepsInv(s1, ChannelEmpty);
    var rest := [];
    if outside {
      rest := FillChannel(s2, most);
    }
    acts := [ContextDone] + ([ChannelEmpty] + rest);
    ExecFirst(s1, ChannelEmpty, rest);
    ExecFirst(s, ContextDone, [ChannelEmpty] + rest);
    BoundedFirst(s1, ChannelEmpty, rest, most, outside);
    BoundedFirst(s, ContextDone, [ChannelEmpty] + rest, most, outside);
  }

  lemma PermitsHeld(s: State)
    requires Inv(s)
    ensures s.permits == |s.running| && |s.left| == s.triggered
  {
  }

  // A task in hand is not running yet and owes nothing.
  lemma HandIsIdle(s: State)
    requires Inv(s) && s.hand.Some?
    ensures s.hand.value !in s.running && s.hand.value < |s.left| && s.left[s.hand.value] == 0
    ensures s.permits == |s.running|
  {
    assert Placed(s, s.hand.value) <= 1;
  }

  lemma AcquiredOwes(s: State, n: nat)
    requires Inv(s) && Step(s, Acquired(n)).Some?
    ensures var s' := Step(s, Acquired(n)).value;
            && Owed(s') == Owed(s) + n && |s'.running| == |s.running| + 1
            && s'.hand.None? && s'.queue == s.queue && s'.ending == s.ending && s'.phase == s.phase
            && s'.maxParallel == s.maxParallel && s'.cacheSize == s.cacheSize
  {
    hide Inv, Sum;
    HandIsIdle(s);
    SumUpdate(s.left, s.hand.value, n);
  }

  lemma TimesOneMore(n: nat, most: nat)
    ensures (n + 1) * most == n * most + most
  {
  }

  // A task triggered from outside is read from the empty channel.
  lemma TriggeredAndRead(s: State)
    requires Inv(s) && s.cacheSize > 0 && s.phase == Looping && s.hand.None? && s.queue == []
    ensures Step(s, Trigger(None)).Some? && Step(Step(s, Trigger(None)).value, Read).Some?
    ensures var s2 := Step(Step(s, Trigger(None)).value, Read).value;
            && Inv(s2) && s2.hand.Some? && s2.queue == [] && s2.phase == Looping && s2.running == s.running && s2.ending == s.ending
            && Owed(s2) == Owed(s) && s2.maxParallel == s.maxParallel && s2.cacheSize == s.cacheSize
  {
    hide Inv, Sum;
    OwedAfterTrigger(s, None);
    StepKeepsInv(s, Trigger(None));
    StepKeepsInv(Step(s, Trigger(None)).value, Read);
  }

  lemma OneMoreRunning(s: State, most: nat) returns (s3: State)
    requires Inv(s) && s.cacheSize > 0 && s.phase == Looping && s.hand.None? && s.queue == [] && s.ending == {}
    requires Owed(s) == |s.running| * most && |s.running| < s.maxParallel
    ensures Step(s, Trigger(None)).Some?
    ensures var s1 := Step(s, Trigger(None)).value;
            Step(s1, Read).Some? && Step(Step(s1, Read).value, Acquired(most)).Some? && s3 == Step(Step(s1, Read).value, Acquired(most)).value
    ensures Inv(s3) && s3.phase == Looping && s3.hand.None? && s3.queue == [] && s3.ending == {}
    ensures |s3.running| == |s.running| + 1 && Owed(s3) == |s3.running| * most
    ensures s3.maxParallel == s.maxParallel && s3.cacheSize == s.cacheSize
  {
    TriggeredAndRead(s);
    var s2 := Step(Step(s, Trigger(None)).value, Read).value;
    CanAcquire(s2, most);
    hide Inv, Step, Owed;
    s3 := Step(s2, Acquired(most)).value;
    StepKeepsInv(s2, Acquired(most));
    AcquiredOwes(s2, most);
    TimesOneMore(|s.running|, most);
  }

  lemma CanAcquire(s: State, n: nat)
    requires Inv(s) && s.hand.Some? && |s.running| < s.maxParallel
    ensures Step(s, Acquired(n)).Some?
  {
    HandIsIdle(s);
  }

  // Main result: with tasks that trigger at most `most` others each, Run can always still return exactly if the
  // channel has room for what all tasks that may run at once can trigger together; and if triggers may come from
  // outside after the drain, exactly if tasks trigger nothing at all.
  lemma BoundedTasksAlwaysReturn(cacheSize: nat, maxParallel: nat, most: nat, outside: bool)
    requires cacheSize > 0
    ensures (forall acts :: Bounded(New(cacheSize, maxParallel), acts, most, outside) && Exec(New(cacheSize, maxParallel), acts).Some? ==>
               CanReturn(Exec(New(cacheSize, maxParallel), acts).value))
              <==> maxParallel * most <= if outside then 0 else cacheSize
  {
    var s0 := New(cacheSize, maxParallel);
    hide Bounded, Exec, CanReturn, Step, New, Inv, BoundedInv, Load;
    NewIsFresh(cacheSize, maxParallel, most, outside);
    if maxParallel * most <= if outside then 0 else cacheSize {
      forall acts | Bounded(s0, acts, most, outside) && Exec(s0, acts).Some? ensures CanReturn(Exec(s0, acts).value) {
        RunKeepsBound(s0, acts, most, outside);
        LoadFits(Exec(s0, acts).value, most, outside);
        ReturnsExactlyIfItFits(Exec(s0, acts).value);
      }
    } else {
      var acts := WorstDrain(s0, most, outside);
      ExecKeepsInv(s0, acts);
      ReturnsExactlyIfItFits(Exec(s0, acts).value);
    }
  }

  lemma LoadFits(s: State, most: nat, outside: bool)
    requires Inv(s) && BoundedInv(s, most, outside) && s.maxParallel * most <= if outside then 0 else s.cacheSize
    ensures s.phase == Waiting ==> Load(s) <= s.cacheSize
  {
    if outside {
      OwedIsBounded(s, most);
    }
  }

  lemma NewIsFresh(cacheSize: nat, maxParallel: nat, most: nat, outside: bool)
    ensures var s0 := New(cacheSize, maxParallel);
            && Inv(s0) && BoundedInv(s0, most, outside) && Owed(s0) == |s0.running| * most
            && s0.phase == Looping && s0.hand.None? && s0.queue == [] && s0.ending == {}
            && s0.maxParallel == maxParallel && s0.cacheSize == cacheSize
  {
  }

  // The first task, which will trigger `n` more, is running when the drain ends.
  lemma DrainWithOneRunning(cacheSize: nat, maxParallel: nat, n: nat) returns (s: State)
    requires cacheSize > 0 && maxParallel > 0
    ensures Exec(New(cacheSize, maxParallel), [Trigger(None), Read, Acquired(n), ContextDone, ChannelEmpty]) == Some(s)
    ensures s.phase == Waiting && s.left == [n] && s.queue == [] && s.cacheSize == cacheSize
  {
    var s0 := New(cacheSize, maxParallel);
    var s1 := Step(s0, Trigger(None)).value;
    var s2 := Step(s1, Read).value;
    var s3 := Step(s2, Acquired(n)).value;
    var s4 := Step(s3, ContextDone).value;
    s := Step(s4, ChannelEmpty).value;
    hide Step, Exec, New;
    ExecNothing(s);
    ExecFirst(s4, ChannelEmpty, []);
    ExecFirst(s3, ContextDone, [ChannelEmpty]);
    ExecFirst(s2, Acquired(n), [ContextDone] + [ChannelEmpty]);
    ExecFirst(s1, Read, [Acquired(n)] + ([ContextDone] + [ChannelEmpty]));
    ExecFirst(s0, Trigger(None), [Read] + ([Acquired(n)] + ([ContextDone] + [ChannelEmpty])));
    assert [Trigger(None), Read, Acquired(n), ContextDone, ChannelEmpty]
        == [Trigger(None)] + ([Read] + ([Acquired(n)] + ([ContextDone] + [ChannelEmpty])));
    assert [ChannelEmpty] == [ChannelEmpty] + [];
  }

  // It does happen, for every channel and every degree of parallelism: a task that triggers one task more than
  // the channel holds is still running when the drain ends.
  lemma SomeRunsNeverReturn(cacheSize: nat, maxParallel: nat, more: seq<Action>)
    requires cacheSize > 0 && maxParallel > 0
    ensures var acts := [Trigger(None), Read, Acquired(cacheSize + 1), ContextDone, ChannelEmpty];
            && Exec(New(cacheSize, maxParallel), acts).Some?
            && var s := Exec(New(cacheSize, maxParallel), acts).value;
               s.phase == Waiting && (Exec(s, more).Some? ==> Exec(s, more).value.phase != Returned)
  {
    var s := DrainWithOneRunning(cacheSize, maxParallel, cacheSize + 1);
    hide Step, Exec;
    ExecKeepsInv(New(cacheSize, maxParallel), [Trigger(None), Read, Acquired(cacheSize + 1), ContextDone, ChannelEmpty]);
    SumUpdate(s.left, 0, 0);
    ReturnsExactlyIfItFits(s);
    assert !Returns(s, more);
  }
}

/** The guard around pulling a device: a map from user and device to the task at work on it or done with it. */
module PullGuard {

  function GetKey(userID: string, deviceID: string): string {
    userID + "." + deviceID
  }

  // `pulling` is what runs, `pulled` what has succeeded; `guard` is the map's key set.
  datatype State = State(guard: set<string>, pulling: map<nat, string>, pulled: set<string>)

  datatype Action = Begin(id: nat, key: string) | Succeed(id: nat) | Fail(id: nat)

  predicate Enabled(s: State, a: Action) {
    match a
    case Begin(id, _) => id !in s.pulling
    case Succeed(id) => id in s.pulling
    case Fail(id) => id in s.pulling
  }

  // A task that finds its key taken does nothing; a failed pull gives the key back.
  function Step(s: State, a: Action): State
    requires Enabled(s, a)
  {
    match a
    case Begin(id, key) => if key in s.guard then s else State(s.guard + {key}, s.pulling[id := key], s.pulled)
    case Succeed(id) => State(s.guard, s.pulling - {id}, s.pulled + {s.pulling[id]})
    case Fail(id) => State(s.guard - {s.pulling[id]}, s.pulling - {id}, s.pulled)
  }

  ghost predicate Inv(s: State) {
    && (forall i, j :: i in s.pulling && j in s.pulling && i != j ==> s.pulling[i] != s.pulling[j])
    && (forall i :: i in s.pulling ==> s.pulling[i] !in s.pulled)
    && (forall k :: k in s.guard <==> k in s.pulled || exists i :: i in s.pulling && s.pulling[i] == k)
  }

  ghost predicate IsRun(s: State, acts: seq<Action>)
    decreases |acts|
  {
    acts != [] ==> Enabled(s, acts[0]) && IsRun(Step(s, acts[0]), acts[1..])
  }

  function Run(s: State, acts: seq<Action>): State
    requires IsRun(s, acts)
    decreases |acts|
  {
    if acts == [] then s else Run(Step(s, acts[0]), acts[1..])
  }

  lemma StepKeepsInv(s: State, a: Action)
    requires Inv(s) && Enabled(s, a)
    ensures Inv(Step(s, a))
  {
    var s' := Step(s, a);
    forall k | k in s'.guard ensures k in s'.pulled || exists i :: i in s'.pulling && s'.pulling[i] == k {
      if a.Begin? && k == a.key && k !in s.guard {
        assert s'.pulling[a.id] == k;
      } else if k !in s'.pulled {
        var i :| i in s.pulling && s.pulling[i] == k;
        assert s'.pulling[i] == k;
      }
    }
    if a.Fail? {
      var k := s.pulling[a.id];
      assert k !in s'.guard;
    }
  }

  // At most one pull of a device at a time, and none any more once one has succeeded.
  lemma {:induction false} OnePullADevice(s: State, acts: seq<Action>)
    requires Inv(s) && IsRun(s, acts)
    ensures Inv(Run(s, acts)) && s.pulled <= Run(s, acts).pulled
    decreases |acts|
  {
    if acts != [] {
      StepKeepsInv(s, acts[0]);
      OnePullADevice(Step(s, acts[0]), acts[1..]);
    }
  }

  lemma NoPullAfterSuccess(acts: seq<Action>, i: nat, j: nat)
    requires IsRun(State({}, map[], {}), acts)
    ensures var s := Run(State({}, map[], {}), acts);
            && (i in s.pulling && j in s.pulling && i != j ==> s.pulling[i] != s.pulling[j])
            && (i in s.pulling ==> s.pulling[i] !in s.pulled && s.pulling[i] in s.guard)
            && (forall k :: k in s.pulled ==> k in s.guard)
  {
    OnePullADevice(State({}, map[], {}), acts);
  }

  // A pull starts exactly if its device is neither being pulled nor pulled already; a failed one can be repeated.
  lemma PullStartsExactly(acts: seq<Action>, id: nat, key: string)
    requires IsRun(State({}, map[], {}), acts) && id !in Run(State({}, map[], {}), acts).pulling
    ensures var s := Run(State({}, map[], {}), acts);
            var s' := Step(s, Begin(id, key));
            && (id in s'.pulling <==> key !in s.pulled && forall i :: i in s.pulling ==> s.pulling[i] != key)
            && (id in s'.pulling ==>
                  && s'.pulling[id] == key
                  && key !in Step(s', Fail(id)).guard
                  && key in Step(s', Succeed(id)).pulled)
  {
    OnePullADevice(State({}, map[], {}), acts);
  }

  // Two pairs of user and device have the same key exactly if they are the same pair, or the longer user ID is
  // the shorter one, a dot and something, and that something and a dot start the other's device ID.
  lemma KeysCollideExactly(u: string, d: string, u': string, d': string)
    requires |u| <= |u'|
    ensures GetKey(u, d) == GetKey(u', d') <==>
              || (u == u' && d == d')
              || (|u| < |u'| && u'[..|u|] == u && u'[|u|] == '.' && d == u'[|u| + 1..] + "." + d')
  {
    var k, k' := GetKey(u, d), GetKey(u', d');
    assert k[..|u|] == u && k[|u|] == '.' && k[|u| + 1..] == d;
    if |u| == |u'| {
      assert k'[..|u|] == u' && k'[|u| + 1..] == d';
    } else {
      assert k'[..|u|] == u'[..|u|] && k'[|u|] == u'[|u|];
      assert k'[|u| + 1..] == u'[|u| + 1..] + "." + d';
      if u'[..|u|] == u && u'[|u|] == '.' && d == u'[|u| + 1..] + "." + d' {
        assert k == k[..|u|] + [k[|u|]] + k[|u| + 1..];
        assert k' == k'[..|u|] + [k'[|u|]] + k'[|u| + 1..];
      }
    }
  }

  // In particular devices of different users have different keys as long as device IDs hold no dot.
  lemma KeysAreDistinct(u: string, d: string, u': string, d': string)
    requires '.' !in d && '.' !in d' && GetKey(u, d) == GetKey(u', d')
    ensures u == u' && d == d'
  {
    if |u| <= |u'| {
      if |u| < |u'| {
        DotBetween(u'[|u| + 1..], d');
      }
      KeysCollideExactly(u, d, u', d');
    } else {
      DotBetween(u[|u'| + 1..], d);
      KeysCollideExactly(u', d', u, d);
    }
  }

  lemma DotBetween(x: string, y: string)
    ensures '.' in x + "." + y
  {
    assert (x + "." + y)[|x|] == '.';
  }
}
