/**
 * The fan-out refresh of the CoAP gateway: one task a provider is submitted to the queue, the first token to
 * arrive wins and cancels the rest, and the function returns when its wait group is empty. Tasks finish in any
 * order and the queue may turn any of them away.
 */
module RefreshFanOut {
  import opened Records

  // What provider.Refresh returns: Go's pair of a possibly nil token and a possibly nil error.
  datatype Reply = Reply(token: Option<string>, err: Option<string>)

  datatype Task = Unsubmitted | Queued | Rejected | Replied | Done

  // The tasks share a context derived from the caller's: `cancelled` is its cancellation by the first success,
  // `ended` the end of the caller's own. `replies` records the replies in the order in which they took the mutex.
  datatype State = State(
    tasks: seq<Task>,
    next: nat,
    wg: int,
    token: Option<string>,
    err: Option<string>,
    cancelled: bool,
    ended: bool,
    replies: seq<Reply>,
    returned: Option<Reply>)

  const INVALID_TOKEN := "invalid token"

  function Initial(providers: nat): State {
    State(seq(providers, _ => Unsubmitted), 0, 0, None, None, false, false, [], None)
  }

  datatype Action =
    | Submit(accepted: bool)        // the submit loop handles the next provider
    | ReplyArrives(i: nat, reply: Reply)  // a task's critical section
    | TaskDone(i: nat)              // its deferred wg.Done
    | ContextEnds                   // the caller gives up
    | Return

  function Step(s: State, a: Action): Option<State> {
    match a
    case Submit(accepted) =>
      if s.returned.None? && s.next < |s.tasks| then
        if accepted then Some(s.(tasks := s.tasks[s.next := Queued], next := s.next + 1, wg := s.wg + 1))
        else Some(s.(tasks := s.tasks[s.next := Rejected], next := s.next + 1, wg := s.wg + 1 - 1))
      else None
    case ReplyArrives(i, reply) =>
      if i < |s.tasks| && s.tasks[i] == Queued then
        Some(s.(tasks := s.tasks[i := Replied],
                token := if reply.err.None? && s.token.None? then reply.token else s.token,
                cancelled := s.cancelled || (reply.err.None? && s.token.None?),
                err := if s.err.None? then reply.err else s.err,
                replies := s.replies + [reply]))
      else None
    case TaskDone(i) =>
      if i < |s.tasks| && s.tasks[i] == Replied then Some(s.(tasks := s.tasks[i := Done], wg := s.wg - 1)) else None
    case ContextEnds => Some(s.(ended := true))
    case Return =>
      if s.returned.None? && s.next == |s.tasks| && s.wg == 0 then
        Some(s.(returned := Some(
          if s.token.Some? then Reply(s.token, None)
          else if s.err.Some? then Reply(None, s.err)
          else Reply(None, Some(INVALID_TOKEN)))))
      else None
  }

  function Exec(s: State, acts: seq<Action>): Option<State>
    decreases |acts|
  {
    if acts == [] then Some(s)
    else
      match Step(s, acts[0])
      case None => None
      case Some(s') => Exec(s', acts[1..])
  }

  // ---- What it computes ------------------------------------------------------------------------------

  predicate Successful(r: Reply) { r.err.None? && r.token.Some? }

  // The first token that came without an error, and the first error.
  function FirstToken(replies: seq<Reply>): Option<string> {
    if replies == [] then None
    else
      var earlier := FirstToken(replies[..|replies| - 1]);
      var last := replies[|replies| - 1];
      if earlier.None? && Successful(last) then last.token else earlier
  }

  function FirstError(replies: seq<Reply>): Option<string> {
    if replies == [] then None
    else
      var earlier := FirstError(replies[..|replies| - 1]);
      if earlier.None? then replies[|replies| - 1].err else earlier
  }

  // What "first" means: nothing before it qualifies.
  lemma {:induction false} FirstTokenIsFirst(replies: seq<Reply>)
    ensures FirstToken(replies).None? <==> forall i :: 0 <= i < |replies| ==> !Successful(replies[i])
    ensures FirstToken(replies).Some? ==>
              exists i :: 0 <= i < |replies| && Successful(replies[i]) && replies[i].token == FirstToken(replies)
                          && forall j :: 0 <= j < i ==> !Successful(replies[j])
  {
    if replies != [] {
      var t, last := replies[..|replies| - 1], replies[|replies| - 1];
      FirstTokenIsFirst(t);
      if FirstToken(t).Some? {
        var i :| 0 <= i < |t| && Successful(t[i]) && t[i].token == FirstToken(t) && forall j :: 0 <= j < i ==> !Successful(t[j]);
        assert replies[i] == t[i] && forall j :: 0 <= j < i ==> replies[j] == t[j];
      } else {
        assert forall j :: 0 <= j < |t| ==> replies[j] == t[j];
        if Successful(last) {
          assert replies[|t|] == last;
        }
      }
    }
  }

  lemma {:induction false} FirstErrorExists(replies: seq<Reply>)
    ensures FirstError(replies).None? <==> forall i :: 0 <= i < |replies| ==> replies[i].err.None?
    ensures FirstError(replies).Some? ==>
              exists i :: 0 <= i < |replies| && replies[i].err == FirstError(replies)
                          && forall j :: 0 <= j < i ==> replies[j].err.None?
  {
    if replies != [] {
      var t, last := replies[..|replies| - 1], replies[|replies| - 1];
      FirstErrorExists(t);
      if FirstError(t).Some? {
        var i :| 0 <= i < |t| && t[i].err == FirstError(t) && forall j :: 0 <= j < i ==> t[j].err.None?;
        assert replies[i] == t[i] && forall j :: 0 <= j < i ==> replies[j] == t[j];
      } else {
        assert forall j :: 0 <= j < |t| ==> replies[j] == t[j];
        if last.err.Some? {
          assert replies[|t|] == last;
        }
      }
    }
  }

  // ---- The invariant ---------------------------------------------------------------------------------

  function Slots(t: Task): nat { if t == Queued || t == Replied then 1 else 0 }

  // Wait-group slots still held: a task holds its slot from submission to wg.Done.
  function Held(tasks: seq<Task>): nat {
    if tasks == [] then 0
    else Held(tasks[..|tasks| - 1]) + Slots(tasks[|tasks| - 1])
  }

  // One task moves on.
  lemma {:induction false} TaskMoves(tasks: seq<Task>, i: nat, t: Task)
    requires i < |tasks|
    ensures Held(tasks[i := t]) == Held(tasks) - Slots(tasks[i]) + Slots(t)
  {
    var n := |tasks| - 1;
    if i < n {
      assert tasks[i := t][..n] == tasks[..n][i := t];
      TaskMoves(tasks[..n], i, t);
    } else {
      assert tasks[i := t][..n] == tasks[..n];
    }
  }

  lemma {:induction false} NoneHeld(tasks: seq<Task>)
    requires Held(tasks) == 0
    ensures forall i :: 0 <= i < |tasks| ==> tasks[i] != Queued && tasks[i] != Replied
  {
    if tasks != [] {
      NoneHeld(tasks[..|tasks| - 1]);
    }
  }

  lemma {:induction false} HeldNothingYet(n: nat)
    ensures Held(seq(n, _ => Unsubmitted)) == 0
  {
    if n > 0 {
      var s := seq(n, _ => Unsubmitted);
      assert s[..n - 1] == seq(n - 1, _ => Unsubmitted);
      HeldNothingYet(n - 1);
    }
  }

  ghost predicate Inv(s: State) {
    && s.next <= |s.tasks|
    && (forall i :: 0 <= i < |s.tasks| ==> (s.tasks[i] == Unsubmitted <==> s.next <= i))
    && s.wg == Held(s.tasks)
    && s.token == FirstToken(s.replies) && s.err == FirstError(s.replies)
    && (s.returned.Some? ==> s.next == |s.tasks| && s.wg == 0 && s.returned.value == Outcome(s.replies))
  }

  function Outcome(replies: seq<Reply>): Reply {
    if FirstToken(replies).Some? then Reply(FirstToken(replies), None)
    else if FirstError(replies).Some? then Reply(None, FirstError(replies))
    else Reply(None, Some(INVALID_TOKEN))
  }

  lemma ReplyKeepsInv(s: State, i: nat, reply: Reply)
    requires Inv(s) && Step(s, ReplyArrives(i, reply)).Some?
    ensures Inv(Step(s, ReplyArrives(i, reply)).value)
  {
    hide Held;
    TaskMoves(s.tasks, i, Replied);
    assert (s.replies + [reply])[..|s.replies|] == s.replies;
    if s.wg == 0 {
      NoneHeld(s.tasks);
    }
  }

  lemma StepKeepsInv(s: State, a: Action)
    requires Inv(s) && Step(s, a).Some?
    ensures Inv(Step(s, a).value)
  {
    hide Held, FirstToken, FirstError;
    match a
    case Submit(accepted) => TaskMoves(s.tasks, s.next, if accepted then Queued else Rejected);
    case ReplyArrives(i, reply) => ReplyKeepsInv(s, i, reply);
    case TaskDone(i) =>
      TaskMoves(s.tasks, i, Done);
      if s.wg == 0 {
        NoneHeld(s.tasks);
      }
    case ContextEnds =>
    case Return =>
  }

  lemma StepKeepsSize(s: State, a: Action)
    requires Step(s, a).Some?
    ensures |Step(s, a).value.tasks| == |s.tasks|
  {
  }

  lemma {:induction false} ExecKeepsInv(s: State, acts: seq<Action>)
    requires Inv(s) && Exec(s, acts).Some?
    ensures Inv(Exec(s, acts).value) && |Exec(s, acts).value.tasks| == |s.tasks|
    decreases |acts|
  {
    hide Inv, Step;
    if acts != [] {
      StepKeepsInv(s, acts[0]);
      StepKeepsSize(s, acts[0]);
      ExecKeepsInv(Step(s, acts[0]).value, acts[1..]);
    }
  }

  lemma InitialInv(providers: nat)
    ensures Inv(Initial(providers))
  {
    HeldNothingYet(providers);
  }

  // ---- Results ---------------------------------------------------------------------------------------

  // Main result: for any number of providers, any order of replies and any rejected submissions, a run that
  // returns gives the first token received if any provider succeeded, otherwise an error; never both, never
  // neither.
  lemma ReturnsFirstTokenOrError(providers: nat, acts: seq<Action>)
    requires Exec(Initial(providers), acts).Some? && Exec(Initial(providers), acts).value.returned.Some?
    ensures var s := Exec(Initial(providers), acts).value;
            var r := s.returned.value;
            && (r.token.Some? <==> r.err.None?)
            && (r.token.Some? <==> exists i :: 0 <= i < |s.replies| && Successful(s.replies[i]))
            && (r.token.Some? ==> exists i :: 0 <= i < |s.replies| && Successful(s.replies[i]) && s.replies[i].token == r.token
                                              && forall j :: 0 <= j < i ==> !Successful(s.replies[j]))
            && (r.err.Some? ==>
                  || (r.err == Some(INVALID_TOKEN) && forall i :: 0 <= i < |s.replies| ==> s.replies[i].err.None?)
                  || exists i :: 0 <= i < |s.replies| && s.replies[i].err == r.err && forall j :: 0 <= j < i ==> s.replies[j].err.None?)
  {
    InitialInv(providers);
    ExecKeepsInv(Initial(providers), acts);
    var s := Exec(Initial(providers), acts).value;
    FirstTokenIsFirst(s.replies);
    FirstErrorExists(s.replies);
  }

  // ---- The providers ---------------------------------------------------------------------------------

  // A reply that cancels the others without bringing a token.
  predicate Empty(r: Reply) { r.err.None? && r.token.None? }

  // `script` holds what each provider answers if it is left alone. Once the context is cancelled, or the
  // caller's has ended, a provider may instead give an error and no token.
  predicate Follows(s: State, a: Action, script: seq<Reply>) {
    a.ReplyArrives? && a.i < |script| ==>
      a.reply == script[a.i] || ((s.cancelled || s.ended) && a.reply.err.Some? && a.reply.token.None?)
  }

  ghost predicate FollowsAll(s: State, acts: seq<Action>, script: seq<Reply>)
    decreases |acts|
  {
    acts != [] ==>
      Follows(s, acts[0], script) && Step(s, acts[0]).Some? && FollowsAll(Step(s, acts[0]).value, acts[1..], script)
  }

  // A run of these providers that returns `r`; the queue took the tasks marked in `accepted`.
  ghost predicate Yields(s: State, acts: seq<Action>, script: seq<Reply>, accepted: seq<bool>, r: Reply) {
    && FollowsAll(s, acts, script) && Exec(s, acts).Some?
    && Exec(s, acts).value.returned == Some(r)
    && |Exec(s, acts).value.tasks| == |accepted| == |script|
    && forall i :: 0 <= i < |accepted| ==> (accepted[i] <==> Exec(s, acts).value.tasks[i] != Rejected)
  }

  // The caller's context has not ended by the end of the run.
  predicate Undisturbed(s: State, acts: seq<Action>)
    requires Exec(s, acts).Some?
  {
    !Exec(s, acts).value.ended
  }

  predicate HasReplied(s: State, i: nat)
    requires i < |s.tasks|
  {
    Replies(s.tasks[i]) == 1
  }

  // While the context lasts, no provider that replied had a success or an empty reply to give; and the token
  // is one a provider gives of itself.
  ghost predicate ScriptInv(s: State, script: seq<Reply>) {
    && |script| == |s.tasks|
    && (s.token.Some? ==> s.cancelled && exists i :: 0 <= i < |script| && HasReplied(s, i) && Successful(script[i]) && script[i].token == s.token)
    && (!s.cancelled && !s.ended ==> forall i :: 0 <= i < |script| && HasReplied(s, i) ==> script[i].err.Some?)
    && (s.cancelled && s.token.None? ==> exists i :: 0 <= i < |script| && HasReplied(s, i) && Empty(script[i]))
  }

  lemma StepKeepsScript(s: State, a: Action, script: seq<Reply>)
    requires Inv(s) && ScriptInv(s, script) && Follows(s, a, script) && Step(s, a).Some?
    ensures ScriptInv(Step(s, a).value, script)
  {
    if a.ReplyArrives? {
      ReplyKeepsScript(s, a.i, a.reply, script);
    } else {
      OtherStepKeepsScript(s, a, script);
    }
  }

  lemma ReplyKeepsScript(s: State, k: nat, reply: Reply, script: seq<Reply>)
    requires ScriptInv(s, script) && Follows(s, ReplyArrives(k, reply), script) && Step(s, ReplyArrives(k, reply)).Some?
    ensures ScriptInv(Step(s, ReplyArrives(k, reply)).value, script)
  {
    var s' := Step(s, ReplyArrives(k, reply)).value;
    assert HasReplied(s', k);
    assert forall i :: 0 <= i < |script| && i != k ==> (HasReplied(s', i) <==> HasReplied(s, i));
  }

  // No other step changes who has replied, the token or the cancellation.
  lemma OtherStepKeepsScript(s: State, a: Action, script: seq<Reply>)
    requires Inv(s) && ScriptInv(s, script) && Step(s, a).Some? && !a.ReplyArrives?
    ensures ScriptInv(Step(s, a).value, script)
  {
    hide FirstToken, FirstError, Held;
    var s' := Step(s, a).value;
    assert forall i :: 0 <= i < |script| ==> (HasReplied(s', i) <==> HasReplied(s, i));
    SameRepliesKeepScript(s, s', script);
  }

  lemma SameRepliesKeepScript(s: State, s': State, script: seq<Reply>)
    requires ScriptInv(s, script) && |s'.tasks| == |s.tasks|
    requires s'.token == s.token && s'.cancelled == s.cancelled && (s.ended ==> s'.ended)
    requires forall i :: 0 <= i < |script| ==> (HasReplied(s', i) <==> HasReplied(s, i))
    ensures ScriptInv(s', script)
  {
    hide HasReplied;
  }

  lemma {:induction false} RunKeepsScript(s: State, acts: seq<Action>, script: seq<Reply>)
    requires Inv(s) && ScriptInv(s, script) && FollowsAll(s, acts, script)
    ensures Exec(s, acts).Some? && Inv(Exec(s, acts).value) && ScriptInv(Exec(s, acts).value, script)
    decreases |acts|
  {
    if acts != [] {
      hide Inv, ScriptInv;
      StepKeepsInv(s, acts[0]);
      StepKeepsScript(s, acts[0], script);
      RunKeepsScript(Step(s, acts[0]).value, acts[1..], script);
    }
  }

  ghost predicate SomeSucceeds(script: seq<Reply>, accepted: seq<bool>) {
    exists i :: 0 <= i < |script| && i < |accepted| && accepted[i] && Successful(script[i])
  }

  ghost predicate SomeIsEmpty(script: seq<Reply>, accepted: seq<bool>) {
    exists i :: 0 <= i < |script| && i < |accepted| && accepted[i] && Empty(script[i])
  }

  // In any order of completion: a token is one that an accepted provider gives of itself, and there is one if
  // some accepted provider succeeds, none replies with neither token nor error and the caller's context lasts.
  lemma OutcomeOfTheProviders(acts: seq<Action>, script: seq<Reply>, accepted: seq<bool>, r: Reply)
    requires Yields(Initial(|script|), acts, script, accepted, r)
    ensures r.token.Some? ==> exists i :: 0 <= i < |script| && accepted[i] && Successful(script[i]) && script[i].token == r.token
    ensures SomeSucceeds(script, accepted) && !SomeIsEmpty(script, accepted) && Undisturbed(Initial(|script|), acts) ==> r.token.Some?
  {
    InitialInv(|script|);
    RunKeepsScript(Initial(|script|), acts, script);
    EverySlotReleasedOnce(|script|, acts);
    var s := Exec(Initial(|script|), acts).value;
    assert r.token == s.token;
    forall i | 0 <= i < |script| && accepted[i] ensures HasReplied(s, i) {
      assert s.tasks[i] == Done;
    }
  }

  // From any state with the context at its end the run can be finished with errors only.
  lemma {:induction false} FinishWithErrors(s: State, script: seq<Reply>, k: nat) returns (acts: seq<Action>)
    requires Inv(s) && (s.cancelled || s.ended) && s.next == |s.tasks| && s.returned.None? && k <= |s.tasks| == |script|
    requires forall i :: 0 <= i < k ==> s.tasks[i] == Rejected || s.tasks[i] == Done
    ensures FollowsAll(s, acts, script) && Exec(s, acts).Some? && Exec(s, acts).value.returned.Some?
    ensures var end := Exec(s, acts).value;
            && |end.tasks| == |s.tasks| && (forall i :: 0 <= i < |s.tasks| ==> (end.tasks[i] == Rejected <==> s.tasks[i] == Rejected))
            && end.returned.value.token == s.token && end.ended == s.ended
    decreases |s.tasks| - k, if k < |s.tasks| && s.tasks[k] == Queued then 1 else 0
  {
    hide FirstToken, FirstError, Held;
    if k == |s.tasks| {
      AllReleased(s.tasks);
      acts := [Return];
    } else if s.tasks[k] == Queued {
      var a := ReplyArrives(k, Reply(None, Some("context canceled")));
      StepKeepsInv(s, a);
      var rest := FinishWithErrors(Step(s, a).value, script, k);
      acts := [a] + rest;
    } else if s.tasks[k] == Replied {
      StepKeepsInv(s, TaskDone(k));
      var rest := FinishWithErrors(Step(s, TaskDone(k)).value, script, k + 1);
      acts := [TaskDone(k)] + rest;
    } else {
      acts := FinishWithErrors(s, script, k + 1);
    }
  }

  lemma {:induction false} AllReleased(tasks: seq<Task>)
    requires forall i :: 0 <= i < |tasks| ==> tasks[i] == Rejected || tasks[i] == Done
    ensures Held(tasks) == 0
  {
    if tasks != [] {
      AllReleased(tasks[..|tasks| - 1]);
    }
  }

  // All providers submitted first; then, unless the context has ended, the empty reply of some provider; then
  // errors only: no token comes out.
  lemma {:induction false} SomeOrderFails(s: State, script: seq<Reply>, accepted: seq<bool>, empty: Option<nat>) returns (acts: seq<Action>)
    requires Inv(s) && s.returned.None? && s.token.None? && !s.cancelled && |s.tasks| == |accepted| == |script|
    requires forall i :: 0 <= i < s.next ==> s.tasks[i] == if accepted[i] then Queued else Rejected
    requires s.ended || (empty.Some? && empty.value < |script| && accepted[empty.value] && Empty(script[empty.value]))
    ensures exists r :: Yields(s, acts, script, accepted, r) && r.token.None?
    ensures Exec(s, acts).Some? && (Undisturbed(s, acts) <==> !s.ended)
    decreases |s.tasks| - s.next
  {
    if s.next < |s.tasks| {
      var a := Submit(accepted[s.next]);
      StepKeepsInv(s, a);
      var rest := SomeOrderFails(Step(s, a).value, script, accepted, empty);
      acts := [a] + rest;
      var r :| Yields(Step(s, a).value, rest, script, accepted, r) && r.token.None?;
      assert Yields(s, acts, script, accepted, r);
    } else if s.ended {
      acts := FinishWithErrors(s, script, 0);
      assert Yields(s, acts, script, accepted, Exec(s, acts).value.returned.value);
    } else {
      var a := ReplyArrives(empty.value, script[empty.value]);
      StepKeepsInv(s, a);
      var rest := FinishWithErrors(Step(s, a).value, script, 0);
      acts := [a] + rest;
      assert Yields(s, acts, script, accepted, Exec(s, acts).value.returned.value);
    }
  }

  // Main result: whatever the order in which the providers complete and cancel each other, as long as the
  // caller's context lasts the outcome is a token if some accepted provider would give one and an error
  // otherwise; this fails, for some order, exactly when besides such a provider another accepted one would
  // reply with neither token nor error.
  lemma OrderDoesNotMatter(script: seq<Reply>, accepted: seq<bool>)
    requires |script| == |accepted|
    ensures (forall acts, r :: Yields(Initial(|script|), acts, script, accepted, r) && Undisturbed(Initial(|script|), acts) ==>
               (r.token.Some? <==> SomeSucceeds(script, accepted)))
              <==> !(SomeSucceeds(script, accepted) && SomeIsEmpty(script, accepted))
  {
    if SomeSucceeds(script, accepted) && SomeIsEmpty(script, accepted) {
      var j :| 0 <= j < |script| && accepted[j] && Empty(script[j]);
      InitialInv(|script|);
      var acts := SomeOrderFails(Initial(|script|), script, accepted, Some(j));
    } else {
      forall acts, r | Yields(Initial(|script|), acts, script, accepted, r) && Undisturbed(Initial(|script|), acts)
        ensures r.token.Some? <==> SomeSucceeds(script, accepted)
      {
        OutcomeOfTheProviders(acts, script, accepted, r);
      }
    }
  }

  // If the caller's context ends first, there is a run that yields an error, whatever the providers would reply.
  lemma EndedContext(script: seq<Reply>, accepted: seq<bool>) returns (acts: seq<Action>)
    requires |script| == |accepted|
    ensures acts != [] && acts[0] == ContextEnds
    ensures exists r :: Yields(Initial(|script|), acts, script, accepted, r) && r.token.None?
  {
    var s := Initial(|script|);
    InitialInv(|script|);
    StepKeepsInv(s, ContextEnds);
    var rest := SomeOrderFails(Step(s, ContextEnds).value, script, accepted, None);
    acts := [ContextEnds] + rest;
    var r :| Yields(Step(s, ContextEnds).value, rest, script, accepted, r) && r.token.None?;
    assert Yields(s, acts, script, accepted, r);
  }

  // So with contexts that may end at any point the outcome is certain exactly when no provider would succeed.
  lemma OutcomeIsCertain(script: seq<Reply>, accepted: seq<bool>)
    requires |script| == |accepted|
    ensures (forall acts, r :: Yields(Initial(|script|), acts, script, accepted, r) ==> (r.token.Some? <==> SomeSucceeds(script, accepted)))
              <==> !SomeSucceeds(script, accepted)
  {
    if SomeSucceeds(script, accepted) {
      var acts := EndedContext(script, accepted);
    } else {
      forall acts, r | Yields(Initial(|script|), acts, script, accepted, r) ensures r.token.None? {
        OutcomeOfTheProviders(acts, script, accepted, r);
      }
    }
  }

  // Both providers of the hub answer with a token or an error. Then two undisturbed runs with the same providers
  // accepted never differ in kind.
  lemma SameKindOfOutcome(script: seq<Reply>, accepted: seq<bool>, acts: seq<Action>, r: Reply, acts': seq<Action>, r': Reply)
    requires forall i :: 0 <= i < |script| ==> !Empty(script[i])
    requires Yields(Initial(|script|), acts, script, accepted, r) && Undisturbed(Initial(|script|), acts)
    requires Yields(Initial(|script|), acts', script, accepted, r') && Undisturbed(Initial(|script|), acts')
    ensures r.token.Some? <==> r'.token.Some?
  {
    OrderDoesNotMatter(script, accepted);
  }

  // The wait group counts exactly the tasks that have yet to release their slot, so it is never negative, and
  // when the function has returned every provider was either turned away or has run to its end.
  lemma EverySlotReleasedOnce(providers: nat, acts: seq<Action>)
    requires Exec(Initial(providers), acts).Some?
    ensures var s := Exec(Initial(providers), acts).value;
            && s.wg == Held(s.tasks) >= 0
            && (s.returned.Some? ==> forall i :: 0 <= i < |s.tasks| ==> s.tasks[i] == Rejected || s.tasks[i] == Done)
  {
    InitialInv(providers);
    ExecKeepsInv(Initial(providers), acts);
    var s := Exec(Initial(providers), acts).value;
    if s.returned.Some? {
      NoneHeld(s.tasks);
      forall i | 0 <= i < |s.tasks| ensures s.tasks[i] == Rejected || s.tasks[i] == Done {
        assert s.tasks[i] != Unsubmitted;
      }
    }
  }

  // Every accepted task replies exactly once.
  function Replies(t: Task): nat { if t == Replied || t == Done then 1 else 0 }

  function Answered(tasks: seq<Task>): nat {
    if tasks == [] then 0 else Answered(tasks[..|tasks| - 1]) + Replies(tasks[|tasks| - 1])
  }

  lemma {:induction false} AnsweredUpdate(tasks: seq<Task>, i: nat, t: Task)
    requires i < |tasks|
    ensures Answered(tasks[i := t]) == Answered(tasks) - Replies(tasks[i]) + Replies(t)
  {
    var n := |tasks| - 1;
    if i < n {
      assert tasks[i := t][..n] == tasks[..n][i := t];
      AnsweredUpdate(tasks[..n], i, t);
    } else {
      assert tasks[i := t][..n] == tasks[..n];
    }
  }

  lemma StepKeepsAnswered(s: State, a: Action)
    requires Inv(s) && |s.replies| == Answered(s.tasks) && Step(s, a).Some?
    ensures |Step(s, a).value.replies| == Answered(Step(s, a).value.tasks)
  {
    hide Answered, FirstToken, FirstError, Held;
    match a
    case Submit(accepted) => AnsweredUpdate(s.tasks, s.next, if accepted then Queued else Rejected);
    case ReplyArrives(i, _) => AnsweredUpdate(s.tasks, i, Replied);
    case TaskDone(i) => AnsweredUpdate(s.tasks, i, Done);
    case ContextEnds =>
    case Return =>
  }

  lemma {:induction false} OneReplyATask(s: State, acts: seq<Action>)
    requires Inv(s) && |s.replies| == Answered(s.tasks) && Exec(s, acts).Some?
    ensures |Exec(s, acts).value.replies| == Answered(Exec(s, acts).value.tasks)
    decreases |acts|
  {
    hide Inv, Step, Answered;
    if acts != [] {
      StepKeepsInv(s, acts[0]);
      StepKeepsAnswered(s, acts[0]);
      OneReplyATask(Step(s, acts[0]).value, acts[1..]);
    }
  }
}
