/** A weighted semaphore with first-in-first-out waiting, by its documented contract. */
module WeightedSemaphore {

  datatype Waiter = Waiter(id: nat, n: int)

  datatype Semaphore = Semaphore(size: int, cur: int, waiters: seq<Waiter>)

  // Never waits, and never overtakes a waiter.
  function TryAcquire(s: Semaphore, n: int): (Semaphore, bool) {
    if s.size - s.cur >= n && s.waiters == [] then (s.(cur := s.cur + n), true) else (s, false)
  }

  // Granted at once, or queued; a request larger than the semaphore is never queued, it can only time out.
  function Acquire(s: Semaphore, id: nat, n: int): (Semaphore, bool) {
    if s.size - s.cur >= n && s.waiters == [] then (s.(cur := s.cur + n), true)
    else if n > s.size then (s, false)
    else (s.(waiters := s.waiters + [Waiter(id, n)]), false)
  }

  // Wakes waiters from the front as long as they fit.
  function Notify(s: Semaphore): (Semaphore, set<nat>)
    decreases |s.waiters|
  {
    if s.waiters == [] || s.size - s.cur < s.waiters[0].n then (s, {})
    else
      var (s', woken) := Notify(s.(cur := s.cur + s.waiters[0].n, waiters := s.waiters[1..]));
      (s', {s.waiters[0].id} + woken)
  }

  function Release(s: Semaphore, n: int): (Semaphore, set<nat>) {
    Notify(s.(cur := s.cur - n))
  }

  function Remove(waiters: seq<Waiter>, id: nat): seq<Waiter> {
    if waiters == [] then [] else if waiters[0].id == id then waiters[1..] else [waiters[0]] + Remove(waiters[1..], id)
  }

  // A waiter whose context ends leaves the queue; if it was the first, those behind it may fit now.
  function CancelWait(s: Semaphore, id: nat): (Semaphore, set<nat>) {
    var s' := s.(waiters := Remove(s.waiters, id));
    if s.waiters != [] && s.waiters[0].id == id && s.size > s.cur then Notify(s') else (s', {})
  }
}

/**
 * Sign-off against commands and notifications of one session: a command holds weight 1 of the session's
 * semaphore, a sign-off all of it. Every interleaving of the two.
 */
module SignOff {
  import opened WeightedSemaphore

  const ALL := 0x7FFF_FFFF_FFFF_FFFF

  // `commands` and `signOffs` are those between acquire and release.
  datatype Session = Session(sem: Semaphore, commands: set<nat>, signOffs: set<nat>)

  const NEW_SESSION := Session(Semaphore(ALL, 0, []), {}, {})

  datatype Action =
    | BeginCommand(id: nat)     // TryAcquire(1): refused while it cannot be had at once
    | EndCommand(id: nat)
    | BeginSignOff(id: nat)     // Acquire(ALL): waits its turn
    | SignOffTimesOut(id: nat)
    | EndSignOff(id: nat)

  predicate InQueue(w: seq<Waiter>, id: nat) { exists i :: 0 <= i < |w| && w[i].id == id }

  predicate IsWaiting(s: Session, id: nat) { InQueue(s.sem.waiters, id) }

  predicate Enabled(s: Session, a: Action) {
    match a
    case BeginCommand(id) => id !in s.commands
    case EndCommand(id) => id in s.commands
    case BeginSignOff(id) => id !in s.signOffs && !IsWaiting(s, id)
    case SignOffTimesOut(id) => IsWaiting(s, id)
    case EndSignOff(id) => id in s.signOffs
  }

  function Step(s: Session, a: Action): Session {
    match a
    case BeginCommand(id) =>
      var (sem, ok) := TryAcquire(s.sem, 1);
      Session(sem, if ok then s.commands + {id} else s.commands, s.signOffs)
    case EndCommand(id) =>
      var (sem, woken) := Release(s.sem, 1);
      Session(sem, s.commands - {id}, s.signOffs + woken)
    case BeginSignOff(id) =>
      var (sem, ok) := Acquire(s.sem, id, ALL);
      Session(sem, s.commands, if ok then s.signOffs + {id} else s.signOffs)
    case SignOffTimesOut(id) =>
      var (sem, woken) := CancelWait(s.sem, id);
      Session(sem, s.commands, s.signOffs + woken)
    case EndSignOff(id) =>
      var (sem, woken) := Release(s.sem, ALL);
      Session(sem, s.commands, s.signOffs - {id} + woken)
  }

  ghost predicate IsRun(s: Session, acts: seq<Action>)
    decreases |acts|
  {
    acts != [] ==> Enabled(s, acts[0]) && IsRun(Step(s, acts[0]), acts[1..])
  }

  function Run(s: Session, acts: seq<Action>): Session
    decreases |acts|
  {
    if acts == [] then s else Run(Step(s, acts[0]), acts[1..])
  }

  // ---- The invariant ---------------------------------------------------------------------------------

  // The queue holds distinct sign-offs that are not active yet, and never one that could be let in.
  ghost predicate QueueOk(sem: Semaphore, signOffs: set<nat>) {
    && (forall i :: 0 <= i < |sem.waiters| ==> sem.waiters[i].n == ALL && sem.waiters[i].id !in signOffs)
    && (forall i, j :: 0 <= i < j < |sem.waiters| ==> sem.waiters[i].id != sem.waiters[j].id)
    && (sem.waiters != [] ==> sem.cur > 0)
  }

  ghost predicate Inv(s: Session) {
    && s.sem.size == ALL
    && 0 <= s.sem.cur <= ALL
    && s.sem.cur == |s.commands| + ALL * |s.signOffs|
    && QueueOk(s.sem, s.signOffs)
  }

  // With waiters that want everything, a wake-up lets in exactly the first, and only when nothing is held.
  lemma NotifyLetsInTheFirst(s: Semaphore)
    requires s.size == ALL && 0 <= s.cur <= ALL
    requires forall i :: 0 <= i < |s.waiters| ==> s.waiters[i].n == ALL
    ensures Notify(s) == if s.waiters == [] || s.cur > 0 then (s, {})
                         else (s.(cur := ALL, waiters := s.waiters[1..]), {s.waiters[0].id})
  {
    if s.waiters != [] && s.cur == 0 {
      var s' := s.(cur := s.cur + s.waiters[0].n, waiters := s.waiters[1..]);
      assert s'.waiters != [] ==> s'.waiters[0] == s.waiters[1];
      assert Notify(s') == (s', {});
      assert {s.waiters[0].id} + {} == {s.waiters[0].id};
    }
  }

  lemma {:induction false} RemoveOne(w: seq<Waiter>, id: nat) returns (k: nat)
    requires InQueue(w, id) && forall i, j :: 0 <= i < j < |w| ==> w[i].id != w[j].id
    ensures k < |w| && w[k].id == id && Remove(w, id) == w[..k] + w[k + 1..]
  {
    if w[0].id == id {
      k := 0;
    } else {
      var i :| 0 <= i < |w| && w[i].id == id;
      assert w[1..][i - 1].id == id;
      var m := RemoveOne(w[1..], id);
      k := m + 1;
      hide Remove;
      FirstStays(w, m);
    }
  }

  lemma FirstStays(w: seq<Waiter>, m: nat)
    requires m + 1 < |w|
    ensures [w[0]] + (w[1..][..m] + w[1..][m + 1..]) == w[..m + 1] + w[m + 2..]
  {
  }

  // What a release of `n` leaves to the waiters.
  lemma WakeUpKeepsInv(sem: Semaphore, commands: set<nat>, signOffs: set<nat>)
    requires sem.size == ALL && 0 <= sem.cur <= ALL && sem.cur == |commands| + ALL * |signOffs|
    requires QueueOk(sem.(cur := 1), signOffs)
    ensures var (sem', woken) := Notify(sem); Inv(Session(sem', commands, signOffs + woken))
  {
    hide Notify;
    NotifyLetsInTheFirst(sem);
    if sem.waiters == [] || sem.cur > 0 {
      assert signOffs + {} == signOffs;
    } else {
      NotEmpty(signOffs);
      NotEmpty(commands);
      assert {} + {sem.waiters[0].id} == {sem.waiters[0].id};
      assert |{sem.waiters[0].id}| == 1;
    }
  }

  lemma EndKeepsInv(s: Session, a: Action)
    requires Inv(s) && Enabled(s, a) && (a.EndCommand? || a.EndSignOff?)
    ensures Inv(Step(s, a))
  {
    hide Notify;
    NotEmpty(s.signOffs);
    NotEmpty(s.commands);
    if a.EndCommand? {
      assert |s.commands - {a.id}| == |s.commands| - 1;
      WakeUpKeepsInv(s.sem.(cur := s.sem.cur - 1), s.commands - {a.id}, s.signOffs);
    } else {
      assert |s.signOffs - {a.id}| == |s.signOffs| - 1;
      WakeUpKeepsInv(s.sem.(cur := s.sem.cur - ALL), s.commands, s.signOffs - {a.id});
    }
  }

  lemma QueueWithoutOne(sem: Semaphore, signOffs: set<nat>, id: nat)
    requires QueueOk(sem, signOffs) && InQueue(sem.waiters, id)
    ensures QueueOk(sem.(waiters := Remove(sem.waiters, id)), signOffs)
    ensures forall i :: 0 <= i < |Remove(sem.waiters, id)| ==> Remove(sem.waiters, id)[i].id != id
  {
    hide Remove;
    var w := sem.waiters;
    var k := RemoveOne(w, id);
    var w' := Remove(w, id);
    forall i | 0 <= i < |w'| ensures w'[i] == w[if i < k then i else i + 1] {}
  }

  lemma TimeOutKeepsInv(s: Session, id: nat)
    requires Inv(s) && Enabled(s, SignOffTimesOut(id))
    ensures Inv(Step(s, SignOffTimesOut(id)))
    ensures Step(s, SignOffTimesOut(id)).signOffs == s.signOffs
    ensures !IsWaiting(Step(s, SignOffTimesOut(id)), id)
  {
    hide Remove, Notify;
    QueueWithoutOne(s.sem, s.signOffs, id);
    NotifyLetsInTheFirst(s.sem.(waiters := Remove(s.sem.waiters, id)));
  }

  lemma StepKeepsInv(s: Session, a: Action)
    requires Inv(s) && Enabled(s, a)
    ensures Inv(Step(s, a))
  {
    match a
    case BeginCommand(_) =>
    case EndCommand(_) => EndKeepsInv(s, a);
    case BeginSignOff(id) =>
    case SignOffTimesOut(id) => TimeOutKeepsInv(s, id);
    case EndSignOff(_) => EndKeepsInv(s, a);
  }

  lemma {:induction false} RunKeepsInv(s: Session, acts: seq<Action>)
    requires Inv(s) && IsRun(s, acts)
    ensures Inv(Run(s, acts))
    decreases |acts|
  {
    if acts != [] {
      StepKeepsInv(s, acts[0]);
      RunKeepsInv(Step(s, acts[0]), acts[1..]);
    }
  }

  // ---- Results ---------------------------------------------------------------------------------------

  // Main result: in every reachable state the weight held is that of the commands in flight plus the whole
  // for an active sign-off; so while a sign-off deletes the device no command or notification is under way,
  // and there is at most one sign-off.
  lemma SignOffExcludesCommands(acts: seq<Action>)
    requires IsRun(NEW_SESSION, acts)
    ensures var s := Run(NEW_SESSION, acts);
            && s.sem.cur == |s.commands| + ALL * |s.signOffs| <= ALL
            && (s.signOffs != {} ==> s.commands == {} && |s.signOffs| == 1)
  {
    RunKeepsInv(NEW_SESSION, acts);
    var s := Run(NEW_SESSION, acts);
    NotEmpty(s.signOffs);
    NotEmpty(s.commands);
  }

  // From the moment a sign-off waits or is active no command starts: commands only end.
  lemma NoCommandStarts(s: Session, a: Action)
    requires Inv(s) && Enabled(s, a) && (s.sem.waiters != [] || s.signOffs != {})
    ensures Step(s, a).commands <= s.commands
  {
    NotEmpty(s.signOffs);
  }

  // A command is let in exactly if no sign-off waits or is active (and there are fewer than 2^63 - 1 of them).
  lemma CommandIsLetInExactly(acts: seq<Action>, id: nat)
    requires IsRun(NEW_SESSION, acts) && id !in Run(NEW_SESSION, acts).commands
    ensures var s := Run(NEW_SESSION, acts);
            id in Step(s, BeginCommand(id)).commands <==> s.sem.waiters == [] && s.signOffs == {} && |s.commands| < ALL
  {
    RunKeepsInv(NEW_SESSION, acts);
    var s := Run(NEW_SESSION, acts);
    NotEmpty(s.signOffs);
  }

  // When the last command ends, the sign-off that has waited longest goes ahead at once.
  lemma LastCommandLetsSignOffIn(s: Session, id: nat)
    requires Inv(s) && s.commands == {id} && s.sem.waiters != []
    ensures Step(s, EndCommand(id)).signOffs == {s.sem.waiters[0].id}
    ensures Step(s, EndCommand(id)).commands == {}
  {
    NotEmpty(s.signOffs);
    NotifyLetsInTheFirst(s.sem.(cur := s.sem.cur - 1));
  }

  // So a waiting sign-off is let in after as many endings as there are commands in flight, in any order.
  lemma {:induction false} DrainingLetsSignOffIn(s: Session, ends: seq<nat>)
    requires Inv(s) && s.sem.waiters != [] && s.commands != {}
    requires |ends| == |s.commands| && (forall i :: 0 <= i < |ends| ==> ends[i] in s.commands)
    requires forall i, j :: 0 <= i < j < |ends| ==> ends[i] != ends[j]
    ensures var acts := seq(|ends|, i requires 0 <= i < |ends| => EndCommand(ends[i]));
            var s' := Run(s, acts);
            IsRun(s, acts) && s'.commands == {} && s'.signOffs == {s.sem.waiters[0].id}
    decreases |ends|
  {
    var acts := seq(|ends|, i requires 0 <= i < |ends| => EndCommand(ends[i]));
    var rest := ends[1..];
    var s1 := Step(s, EndCommand(ends[0]));
    assert |s.commands - {ends[0]}| == |s.commands| - 1;
    assert acts[1..] == seq(|rest|, i requires 0 <= i < |rest| => EndCommand(rest[i]));
    if |ends| == 1 {
      OnlyElement(s.commands, ends[0]);
      LastCommandLetsSignOffIn(s, ends[0]);
      assert acts[1..] == [];
    } else {
      EndKeepsInv(s, EndCommand(ends[0]));
      NotifyLetsInTheFirst(s.sem.(cur := s.sem.cur - 1));
      DrainingLetsSignOffIn(s1, rest);
    }
  }

  lemma NotEmpty(s: set<nat>)
    ensures s != {} ==> |s| >= 1
  {
  }

  lemma OnlyElement(s: set<nat>, x: nat)
    requires |s| == 1 && x in s
    ensures s == {x}
  {
    assert |s - {x}| == 0;
    assert s - {x} == {};
  }

  // ---- Who wants or holds the semaphore --------------------------------------------------------------

  ghost predicate Claims(s: Session, id: nat) { id in s.signOffs || IsWaiting(s, id) }

  // A wake-up takes the first waiter into the active sign-offs and loses nobody.
  lemma WakeUpKeepsClaims(sem: Semaphore, signOffs: set<nat>, id: nat)
    requires sem.size == ALL && 0 <= sem.cur <= ALL
    requires forall i :: 0 <= i < |sem.waiters| ==> sem.waiters[i].n == ALL
    ensures var (sem', woken) := Notify(sem);
            Claims(Session(sem', {}, signOffs + woken), id) <==> Claims(Session(sem, {}, signOffs), id)
  {
    NotifyLetsInTheFirst(sem);
    if sem.waiters != [] && sem.cur == 0 {
      var rest := sem.waiters[1..];
      assert forall i :: 0 <= i < |rest| ==> rest[i] == sem.waiters[i + 1];
      assert forall i :: 0 < i < |sem.waiters| ==> sem.waiters[i] == rest[i - 1];
    }
  }

  lemma RemovedFromQueue(w: seq<Waiter>, k: nat, id: nat)
    requires InQueue(w, k) && forall i, j :: 0 <= i < j < |w| ==> w[i].id != w[j].id
    ensures InQueue(Remove(w, k), id) <==> InQueue(w, id) && id != k
    ensures forall i :: 0 <= i < |Remove(w, k)| ==> Remove(w, k)[i] in w
  {
    hide Remove;
    var n := RemoveOne(w, k);
    OneTakenOut(w, Remove(w, k), n, id);
  }

  lemma OneTakenOut(w: seq<Waiter>, w': seq<Waiter>, n: nat, id: nat)
    requires n < |w| && w' == w[..n] + w[n + 1..] && forall i, j :: 0 <= i < j < |w| ==> w[i].id != w[j].id
    ensures InQueue(w', id) <==> InQueue(w, id) && id != w[n].id
    ensures forall i :: 0 <= i < |w'| ==> w'[i] in w
  {
    forall i | 0 <= i < |w'| ensures w'[i] == w[if i < n then i else i + 1] {}
    if InQueue(w, id) && id != w[n].id {
      var i :| 0 <= i < |w| && w[i].id == id;
      assert w'[if i < n then i else i - 1] == w[i];
    }
  }

  lemma TimeOutTakesClaim(s: Session, k: nat, id: nat)
    requires Inv(s) && IsWaiting(s, k)
    ensures Claims(Step(s, SignOffTimesOut(k)), id) <==> Claims(s, id) && id != k
  {
    hide Remove, Notify;
    RemovedFromQueue(s.sem.waiters, k, id);
    var sem := s.sem.(waiters := Remove(s.sem.waiters, k));
    assert forall i :: 0 <= i < |sem.waiters| ==> sem.waiters[i] in s.sem.waiters;
    WakeUpKeepsClaims(sem, s.signOffs, id);
  }

  // Only its own steps give a sign-off a claim or take it away.
  lemma ClaimsAfter(s: Session, a: Action, id: nat)
    requires Inv(s) && Enabled(s, a)
    ensures Claims(Step(s, a), id) <==>
              if a == BeginSignOff(id) then true
              else if a == SignOffTimesOut(id) || a == EndSignOff(id) then false
              else Claims(s, id)
    ensures id in s.signOffs && a != EndSignOff(id) ==> id in Step(s, a).signOffs
  {
    hide Remove, Notify;
    match a
    case BeginCommand(_) =>
    case EndCommand(_) => WakeUpKeepsClaims(s.sem.(cur := s.sem.cur - 1), s.signOffs, id);
    case BeginSignOff(k) =>
      var w := s.sem.waiters + [Waiter(k, ALL)];
      assert w[|s.sem.waiters|].id == k && forall i :: 0 <= i < |s.sem.waiters| ==> w[i] == s.sem.waiters[i];
    case SignOffTimesOut(k) => TimeOutTakesClaim(s, k, id);
    case EndSignOff(k) =>
      WakeUpKeepsClaims(s.sem.(cur := s.sem.cur - ALL), s.signOffs - {k}, id);
      NotEmpty(s.signOffs);
  }
}

/**
 * The sign-off handler, one step a stage, interleaved with commands, time-outs and other sign-offs of the same
 * session. What the checks and the remote calls answer is part of the step.
 */
module SignOffHandler {
  import opened Records
  import opened WeightedSemaphore
  import opened SignOff

  datatype Code = Deleted | BadOption | BadRequest | ServiceUnavailable | Unauthorized | RemoteError

  // What a handler does next.
  datatype Stage =
    | Acquiring
    | Verifying
    | DeletingDocuments
    | DeletingCertificates
    | Unsubscribing
    | DeletingFromUser
    | CleaningUp
    | Leaving(code: Code)  // the deferred release
    | Left(code: Code)

  datatype Effect = DeleteDocuments | DeleteCertificates | Unsubscribe | DeleteFromUser | CleanUp

  const EFFECTS := [DeleteDocuments, DeleteCertificates, Unsubscribe, DeleteFromUser, CleanUp]

  // NotOne: the call succeeded, but for another number of devices than one.
  datatype Outcome = Success | NotOne | Failure

  datatype Entry = Entry(id: nat, effect: Effect)

  // `log` records the effects in the order in which they happen.
  datatype State = State(session: Session, stages: map<nat, Stage>, log: seq<Entry>)

  const INITIAL := State(NEW_SESSION, map[], [])

  datatype Action =
    | CommandBegins(id: nat)
    | CommandEnds(id: nat)
    | Enter(id: nat, queryOk: bool, complete: bool)  // up to and including the call of Acquire
    | Acquired(id: nat)                              // Acquire returns
    | GiveUp(id: nat)                                // the context ends first
    | Proceed(id: nat, outcome: Outcome)
    | Leave(id: nat)

  function EffectOf(st: Stage): Option<Effect> {
    match st
    case DeletingDocuments => Some(DeleteDocuments)
    case DeletingCertificates => Some(DeleteCertificates)
    case Unsubscribing => Some(Unsubscribe)
    case DeletingFromUser => Some(DeleteFromUser)
    case CleaningUp => Some(CleanUp)
    case _ => None
  }

  function Next(st: Stage, outcome: Outcome): Stage
    requires Working(st)
  {
    match st
    case Verifying => if outcome == Failure then Leaving(Unauthorized) else DeletingDocuments
    case DeletingDocuments => if outcome == Failure then Leaving(RemoteError) else DeletingCertificates
    case DeletingCertificates => if outcome == Failure then Leaving(BadRequest) else Unsubscribing
    case Unsubscribing => DeletingFromUser
    case DeletingFromUser =>
      if outcome == Failure then Leaving(RemoteError) else if outcome == NotOne then Leaving(BadRequest) else CleaningUp
    case CleaningUp => Leaving(Deleted)
  }

  predicate Working(st: Stage) { !st.Acquiring? && !st.Leaving? && !st.Left? }

  // Between acquire and release.
  predicate Holding(st: Stage) { !st.Acquiring? && !st.Left? }

  ghost function Step(s: State, a: Action): Option<State> {
    match a
    case CommandBegins(id) =>
      if id in s.session.commands then None else Some(s.(session := SignOff.Step(s.session, BeginCommand(id))))
    case CommandEnds(id) =>
      if id !in s.session.commands then None else Some(s.(session := SignOff.Step(s.session, EndCommand(id))))
    case Enter(id, queryOk, complete) =>
      if id in s.stages then None
      else if !queryOk then Some(s.(stages := s.stages[id := Left(BadOption)]))
      else if !complete then Some(s.(stages := s.stages[id := Left(BadRequest)]))
      else Some(s.(session := SignOff.Step(s.session, BeginSignOff(id)), stages := s.stages[id := Acquiring]))
    case Acquired(id) =>
      if id in s.stages && s.stages[id].Acquiring? && id in s.session.signOffs then
        Some(s.(stages := s.stages[id := Verifying]))
      else None
    case GiveUp(id) =>  // what was granted in the meantime is put back
      if id in s.stages && s.stages[id].Acquiring? then
        Some(s.(session := SignOff.Step(s.session, if id in s.session.signOffs then EndSignOff(id) else SignOffTimesOut(id)),
                stages := s.stages[id := Left(ServiceUnavailable)]))
      else None
    case Proceed(id, outcome) =>
      if id in s.stages && Working(s.stages[id]) then
        Some(s.(stages := s.stages[id := Next(s.stages[id], outcome)],
                log := s.log + match EffectOf(s.stages[id]) case None => [] case Some(e) => [Entry(id, e)]))
      else None
    case Leave(id) =>
      if id in s.stages && s.stages[id].Leaving? then
        Some(s.(session := SignOff.Step(s.session, EndSignOff(id)), stages := s.stages[id := Left(s.stages[id].code)]))
      else None
  }

  ghost function Exec(s: State, acts: seq<Action>): Option<State>
    decreases |acts|
  {
    if acts == [] then Some(s)
    else
      match Step(s, acts[0])
      case None => None
      case Some(s') => Exec(s', acts[1..])
  }

  // ---- The invariant ---------------------------------------------------------------------------------

  // The handlers that wait for the semaphore or hold it are those the semaphore knows of.
  ghost predicate StagesOk(s: State) {
    && SignOff.Inv(s.session)
    && (forall id :: Claims(s.session, id) <==> id in s.stages && !s.stages[id].Left?)
    && (forall id :: id in s.stages && Holding(s.stages[id]) ==> id in s.session.signOffs)
  }

  // The effects of one handler, in order.
  function EffectsOf(log: seq<Entry>, id: nat): seq<Effect> {
    if log == [] then []
    else EffectsOf(log[..|log| - 1], id) + if log[|log| - 1].id == id then [log[|log| - 1].effect] else []
  }

  // How many effects lie behind a handler that has not failed.
  function Behind(st: Stage): nat
    requires !st.Leaving? && !st.Left?
  {
    match st
    case Acquiring => 0
    case Verifying => 0
    case DeletingDocuments => 0
    case DeletingCertificates => 1
    case Unsubscribing => 2
    case DeletingFromUser => 3
    case CleaningUp => 4
  }

  ghost predicate EffectsOk(st: Stage, effects: seq<Effect>) {
    if st.Leaving? || st.Left? then effects <= EFFECTS && (st.code == Deleted <==> effects == EFFECTS)
    else effects == EFFECTS[..Behind(st)]
  }

  ghost predicate LogOk(s: State) {
    && (forall id :: id in s.stages ==> EffectsOk(s.stages[id], EffectsOf(s.log, id)))
    && (forall i :: 0 <= i < |s.log| ==> s.log[i].id in s.stages && !s.stages[s.log[i].id].Acquiring?)
    && Uninterrupted(s.log)
    && (forall i, k :: 0 <= i <= k < |s.log| && Holding(s.stages[s.log[i].id]) ==> s.log[k].id == s.log[i].id)
  }

  // Between two effects of one handler there are none of another.
  ghost predicate Uninterrupted(log: seq<Entry>) {
    forall i, k, j :: 0 <= i <= k <= j < |log| && log[i].id == log[j].id ==> log[k].id == log[i].id
  }

  ghost predicate Inv(s: State) { StagesOk(s) && LogOk(s) }

  // What the session does for one step.
  ghost function SessionAction(s: State, a: Action): Option<SignOff.Action> {
    match a
    case CommandBegins(id) => Some(BeginCommand(id))
    case CommandEnds(id) => Some(EndCommand(id))
    case Enter(id, queryOk, complete) => if queryOk && complete then Some(BeginSignOff(id)) else None
    case GiveUp(id) => Some(if id in s.session.signOffs then EndSignOff(id) else SignOffTimesOut(id))
    case Leave(id) => Some(EndSignOff(id))
    case _ => None
  }

  lemma StagesKept(s: State, a: Action)
    requires StagesOk(s) && Step(s, a).Some?
    ensures StagesOk(Step(s, a).value)
  {
    hide SignOff.Inv, SignOff.Step, Claims;
    var s' := Step(s, a).value;
    if SessionAction(s, a).Some? {
      var b := SessionAction(s, a).value;
      SessionActionEnabled(s, a);
      SignOff.StepKeepsInv(s.session, b);
      forall id
        ensures Claims(s'.session, id) <==> id in s'.stages && !s'.stages[id].Left?
        ensures id in s'.stages && Holding(s'.stages[id]) ==> id in s'.session.signOffs
      {
        ClaimsAfter(s.session, b, id);
      }
    }
  }

  lemma SessionActionEnabled(s: State, a: Action)
    requires StagesOk(s) && Step(s, a).Some? && SessionAction(s, a).Some?
    ensures Enabled(s.session, SessionAction(s, a).value)
    ensures Step(s, a).value.session == SignOff.Step(s.session, SessionAction(s, a).value)
  {
    if a.Enter? || a.GiveUp? || a.Leave? {
      assert Claims(s.session, a.id) <==> a.id in s.stages && !s.stages[a.id].Left?;
    }
  }

  // While a handler is between acquire and release it is alone.
  lemma HolderIsAlone(s: State, id: nat)
    requires StagesOk(s) && id in s.stages && Holding(s.stages[id])
    ensures s.session.commands == {} && s.session.signOffs == {id} && s.session.sem.cur == ALL
    ensures forall k :: k in s.stages && k != id ==> !Holding(s.stages[k])
  {
    NotEmpty(s.session.signOffs);
    NotEmpty(s.session.commands);
    OnlyElement(s.session.signOffs, id);
    assert forall k :: k in s.stages && Holding(s.stages[k]) ==> k in s.session.signOffs;
  }

  lemma EffectsAfter(log: seq<Entry>, e: Entry, id: nat)
    ensures EffectsOf(log + [e], id) == if e.id == id then EffectsOf(log, id) + [e.effect] else EffectsOf(log, id)
  {
    assert (log + [e])[..|log|] == log;
  }

  // A handler changes its stage without an effect.
  lemma StageChangeKeepsLog(s: State, s': State, id: nat)
    requires LogOk(s) && s'.log == s.log && id in s'.stages && s'.stages == s.stages[id := s'.stages[id]]
    requires EffectsOk(s'.stages[id], EffectsOf(s.log, id))
    requires (forall i :: 0 <= i < |s.log| ==> s.log[i].id != id)
             || (id in s.stages && !s'.stages[id].Acquiring? && (Holding(s'.stages[id]) ==> Holding(s.stages[id])))
    ensures LogOk(s')
  {
    hide EffectsOf, EffectsOk;
  }

  lemma EffectKeepsLog(s: State, s': State, id: nat)
    requires Inv(s) && id in s.stages && Working(s.stages[id]) && EffectOf(s.stages[id]).Some?
    requires s'.log == s.log + [Entry(id, EffectOf(s.stages[id]).value)]
    requires id in s'.stages && s'.stages == s.stages[id := s'.stages[id]] && !s'.stages[id].Acquiring?
    requires EffectsOk(s'.stages[id], EffectsOf(s.log, id) + [EffectOf(s.stages[id]).value])
    ensures LogOk(s')
  {
    hide StagesOk, EffectsOf, EffectsOk;
    var e := Entry(id, EffectOf(s.stages[id]).value);
    forall k | k in s'.stages ensures EffectsOk(s'.stages[k], EffectsOf(s'.log, k)) {
      EffectsAfter(s.log, e, k);
    }
    HolderIsAlone(s, id);
  }

  lemma ProceedKeepsLog(s: State, id: nat, outcome: Outcome)
    requires Inv(s) && Step(s, Proceed(id, outcome)).Some?
    ensures LogOk(Step(s, Proceed(id, outcome)).value)
  {
    hide StagesOk, EffectsOf;
    var s' := Step(s, Proceed(id, outcome)).value;
    var st := s.stages[id];
    if EffectOf(st).Some? {
      assert EFFECTS[..Behind(st)] + [EffectOf(st).value] == EFFECTS[..Behind(st) + 1];
      EffectKeepsLog(s, s', id);
    } else {
      assert s.log + [] == s.log;
      assert EffectsOf(s.log, id) == [];
      StageChangeKeepsLog(s, s', id);
    }
  }

  lemma LogKept(s: State, a: Action)
    requires Inv(s) && Step(s, a).Some?
    ensures LogOk(Step(s, a).value)
  {
    hide StagesOk, SignOff.Step, EffectsOf, LogOk;
    var s' := Step(s, a).value;
    match a
    case CommandBegins(_) => SameStagesKeepLog(s, s');
    case CommandEnds(_) => SameStagesKeepLog(s, s');
    case Enter(id, _, _) =>
      NoEffectsYet(s, id);
      StageChangeKeepsLog(s, s', id);
    case Acquired(id) =>
      WaitingHasNoEffects(s, id);
      StageChangeKeepsLog(s, s', id);
    case GiveUp(id) =>
      WaitingHasNoEffects(s, id);
      StageChangeKeepsLog(s, s', id);
    case Proceed(id, outcome) => ProceedKeepsLog(s, id, outcome);
    case Leave(id) =>
      StageOfLog(s, id);
      StageChangeKeepsLog(s, s', id);
  }

  lemma SameStagesKeepLog(s: State, s': State)
    requires LogOk(s) && s'.stages == s.stages && s'.log == s.log
    ensures LogOk(s')
  {
  }

  lemma StageOfLog(s: State, id: nat)
    requires LogOk(s) && id in s.stages
    ensures EffectsOk(s.stages[id], EffectsOf(s.log, id))
  {
  }

  lemma WaitingHasNoEffects(s: State, id: nat)
    requires LogOk(s) && id in s.stages && s.stages[id].Acquiring?
    ensures EffectsOf(s.log, id) == [] && forall i :: 0 <= i < |s.log| ==> s.log[i].id != id
  {
  }

  lemma NoEffectsYet(s: State, id: nat)
    requires LogOk(s) && id !in s.stages
    ensures EffectsOf(s.log, id) == [] && forall i :: 0 <= i < |s.log| ==> s.log[i].id != id
  {
    NotInLog(s.log, id);
  }

  lemma {:induction false} NotInLog(log: seq<Entry>, id: nat)
    requires forall i :: 0 <= i < |log| ==> log[i].id != id
    ensures EffectsOf(log, id) == []
  {
    if log != [] {
      NotInLog(log[..|log| - 1], id);
    }
  }

  lemma {:induction false} ExecKeepsInv(s: State, acts: seq<Action>)
    requires Inv(s) && Exec(s, acts).Some?
    ensures Inv(Exec(s, acts).value)
    decreases |acts|
  {
    if acts != [] {
      hide StagesOk, LogOk, Step;
      StagesKept(s, acts[0]);
      LogKept(s, acts[0]);
      ExecKeepsInv(Step(s, acts[0]).value, acts[1..]);
    }
  }

  // ---- Results ---------------------------------------------------------------------------------------

  // Main result: in every run, from acquire to release, and so at each deletion, a sign-off is alone: no command
  // or notification is under way and no other sign-off is between acquire and release.
  lemma DeletionsAreExclusive(acts: seq<Action>, id: nat)
    requires Exec(INITIAL, acts).Some?
    ensures var s := Exec(INITIAL, acts).value;
            id in s.stages && Holding(s.stages[id]) ==>
              && s.session.commands == {} && s.session.signOffs == {id}
              && forall k :: k in s.stages && k != id ==> !Holding(s.stages[k])
  {
    ExecKeepsInv(INITIAL, acts);
    var s := Exec(INITIAL, acts).value;
    if id in s.stages && Holding(s.stages[id]) {
      HolderIsAlone(s, id);
    }
  }

  // In every run the effects of a sign-off are the first few of the list, in its order, all of them exactly
  // when it answers Deleted; and no effect of another sign-off lies between them.
  lemma DeletionsAreOrdered(acts: seq<Action>, id: nat)
    requires Exec(INITIAL, acts).Some?
    ensures var s := Exec(INITIAL, acts).value;
            && Uninterrupted(s.log)
            && EffectsOf(s.log, id) <= EFFECTS
            && (id in s.stages && s.stages[id].Left? ==> (s.stages[id].code == Deleted <==> EffectsOf(s.log, id) == EFFECTS))
  {
    ExecKeepsInv(INITIAL, acts);
    var s := Exec(INITIAL, acts).value;
    if id !in s.stages {
      NoEffectsYet(s, id);
    } else {
      assert EffectsOk(s.stages[id], EffectsOf(s.log, id));
    }
  }

  // ---- What the outcomes decide ----------------------------------------------------------------------

  // How the steps of one handler turned out, in order: verification, the deletion of documents, of certificates,
  // the unsubscription, the removal from the user, the clean-up.
  function OutcomesOf(acts: seq<Action>, id: nat): seq<Outcome> {
    if acts == [] then []
    else
      var a := acts[|acts| - 1];
      OutcomesOf(acts[..|acts| - 1], id) + if a.Proceed? && a.id == id then [a.outcome] else []
  }

  // The steps that can fail, and the answer to each failure.
  predicate FailsAt(k: nat, o: Outcome) {
    (o == Failure && (k == 0 || k == 1 || k == 2 || k == 4)) || (o == NotOne && k == 4)
  }

  function AnswerTo(k: nat, o: Outcome): Code
    requires FailsAt(k, o)
  {
    if k == 0 then Unauthorized else if k == 1 then RemoteError else if k == 2 then BadRequest
    else if o == Failure then RemoteError else BadRequest
  }

  predicate Ends(st: Stage, code: Code) { st == Leaving(code) || st == Left(code) }

  // No step but the last has failed, each step from the second on had its effect, and the handler is where the
  // last step took it.
  ghost predicate Matches(os: seq<Outcome>, st: Stage, effects: seq<Effect>) {
    && |os| <= 6 && (forall k :: 0 <= k < |os| - 1 ==> !FailsAt(k, os[k]))
    && effects == EFFECTS[..if os == [] then 0 else |os| - 1]
    && (os != [] ==>
          var k := |os| - 1;
          if FailsAt(k, os[k]) then Ends(st, AnswerTo(k, os[k]))
          else if k == 5 then Ends(st, Deleted)
          else st == [DeletingDocuments, DeletingCertificates, Unsubscribing, DeletingFromUser, CleaningUp][k])
  }

  // How a handler got to its first step, or why it did not.
  ghost predicate EnteredAs(acts: seq<Action>, id: nat, st: Stage) {
    var os := OutcomesOf(acts, id);
    && (Enter(id, false, true) in acts || Enter(id, false, false) in acts ==> st == Left(BadOption) && os == [])
    && (Enter(id, true, false) in acts ==> st == Left(BadRequest) && os == [])
    && (GiveUp(id) in acts ==> st == Left(ServiceUnavailable) && os == [])
    && (os == [] ==>
          || (st.Acquiring? && Acquired(id) !in acts)
          || (st.Verifying? && Acquired(id) in acts)
          || (st == Left(ServiceUnavailable) && GiveUp(id) in acts)
          || (st == Left(BadRequest) && Enter(id, true, false) in acts)
          || (st == Left(BadOption) && (Enter(id, false, true) in acts || Enter(id, false, false) in acts)))
    && (os != [] ==> Acquired(id) in acts)
  }

  predicate Concerns(a: Action, id: nat) {
    (a.Enter? || a.Acquired? || a.GiveUp? || a.Proceed? || a.Leave?) && a.id == id
  }

  ghost predicate History(acts: seq<Action>, s: State, id: nat) {
    if id in s.stages then
      Matches(OutcomesOf(acts, id), s.stages[id], EffectsOf(s.log, id)) && EnteredAs(acts, id, s.stages[id])
    else EffectsOf(s.log, id) == [] && forall i :: 0 <= i < |acts| ==> !Concerns(acts[i], id)
  }

  lemma OutcomesAfter(acts: seq<Action>, a: Action, id: nat)
    ensures OutcomesOf(acts + [a], id) == if a.Proceed? && a.id == id then OutcomesOf(acts, id) + [a.outcome] else OutcomesOf(acts, id)
  {
    assert (acts + [a])[..|acts|] == acts;
  }

  lemma {:induction false} NoOutcomesYet(acts: seq<Action>, id: nat)
    requires forall i :: 0 <= i < |acts| ==> !Concerns(acts[i], id)
    ensures OutcomesOf(acts, id) == []
  {
    if acts != [] {
      NoOutcomesYet(acts[..|acts| - 1], id);
    }
  }

  lemma OthersLeaveLog(s: State, a: Action, id: nat)
    requires Step(s, a).Some? && !(a.Proceed? && a.id == id)
    ensures EffectsOf(Step(s, a).value.log, id) == EffectsOf(s.log, id)
  {
    if a.Proceed? {
      if EffectOf(s.stages[a.id]).Some? {
        EffectsAfter(s.log, Entry(a.id, EffectOf(s.stages[a.id]).value), id);
      } else {
        assert s.log + [] == s.log;
      }
    }
  }

  lemma OtherStepKeepsHistory(acts: seq<Action>, s: State, a: Action, id: nat)
    requires History(acts, s, id) && Step(s, a).Some? && !Concerns(a, id)
    ensures History(acts + [a], Step(s, a).value, id)
  {
    hide EffectsOf, OutcomesOf, Matches;
    OthersLeaveLog(s, a, id);
    OutcomesAfter(acts, a, id);
  }

  lemma ProceedKeepsHistory(acts: seq<Action>, s: State, id: nat, outcome: Outcome)
    requires History(acts, s, id) && Step(s, Proceed(id, outcome)).Some?
    ensures History(acts + [Proceed(id, outcome)], Step(s, Proceed(id, outcome)).value, id)
  {
    hide EffectsOf, OutcomesOf;
    var st, os, effects := s.stages[id], OutcomesOf(acts, id), EffectsOf(s.log, id);
    OutcomesAfter(acts, Proceed(id, outcome), id);
    assert s.log + [] == s.log;
    if EffectOf(st).Some? {
      EffectsAfter(s.log, Entry(id, EffectOf(st).value), id);
      assert os != [];
      assert EFFECTS[..|os|] == EFFECTS[..|os| - 1] + [EFFECTS[|os| - 1]];
    }
    assert forall k :: 0 <= k < |os| ==> (os + [outcome])[k] == os[k];
  }

  lemma EnterKeepsHistory(acts: seq<Action>, s: State, a: Action)
    requires a.Enter? && History(acts, s, a.id) && Step(s, a).Some?
    ensures History(acts + [a], Step(s, a).value, a.id)
  {
    hide EffectsOf, OutcomesOf;
    NoOutcomesYet(acts, a.id);
    OutcomesAfter(acts, a, a.id);
    forall b | b in acts ensures !Concerns(b, a.id) {
      var i :| 0 <= i < |acts| && acts[i] == b;
    }
  }

  lemma OwnStepKeepsHistory(acts: seq<Action>, s: State, a: Action)
    requires (a.Acquired? || a.GiveUp? || a.Leave?) && History(acts, s, a.id) && Step(s, a).Some?
    ensures History(acts + [a], Step(s, a).value, a.id)
  {
    hide EffectsOf, OutcomesOf, SignOff.Step;
    OutcomesAfter(acts, a, a.id);
  }

  lemma StepKeepsHistory(acts: seq<Action>, s: State, a: Action, id: nat)
    requires History(acts, s, id) && Step(s, a).Some?
    ensures History(acts + [a], Step(s, a).value, id)
  {
    hide History, Step;
    if !Concerns(a, id) {
      OtherStepKeepsHistory(acts, s, a, id);
    } else if a.Proceed? {
      ProceedKeepsHistory(acts, s, id, a.outcome);
    } else if a.Enter? {
      EnterKeepsHistory(acts, s, a);
    } else {
      OwnStepKeepsHistory(acts, s, a);
    }
  }

  lemma {:induction false} RunKeepsHistory(past: seq<Action>, s: State, acts: seq<Action>, id: nat)
    requires History(past, s, id) && Exec(s, acts).Some?
    ensures History(past + acts, Exec(s, acts).value, id)
    decreases |acts|
  {
    hide History, Step;
    if acts == [] {
      assert past + acts == past;
    } else {
      StepKeepsHistory(past, s, acts[0], id);
      RunKeepsHistory(past + [acts[0]], Step(s, acts[0]).value, acts[1..], id);
      assert past + [acts[0]] + acts[1..] == past + acts;
    }
  }

  // Main result: in every run the outcomes of its steps decide where a handler is and what it has done. A failed
  // step is the last, and the handler leaves with the answer to it; so nothing is deleted unless the verification
  // succeeded, and Deleted is the answer exactly if all six steps were taken and none failed.
  lemma OutcomesDecide(acts: seq<Action>, id: nat)
    requires Exec(INITIAL, acts).Some?
    ensures var s := Exec(INITIAL, acts).value;
            var os := OutcomesOf(acts, id);
            && (id in s.stages ==> Matches(os, s.stages[id], EffectsOf(s.log, id)) && EnteredAs(acts, id, s.stages[id]))
            && (EffectsOf(s.log, id) != [] ==> |os| >= 2 && os[0] != Failure)
            && (id in s.stages && Ends(s.stages[id], Deleted) <==> |os| == 6 && forall k :: 0 <= k < 6 ==> !FailsAt(k, os[k]))
  {
    assert History([], INITIAL, id);
    RunKeepsHistory([], INITIAL, acts, id);
    assert [] + acts == acts;
    hide Exec, Matches, EffectsOf, OutcomesOf;
    var s := Exec(INITIAL, acts).value;
    if id !in s.stages {
      NoOutcomesYet(acts, id);
    } else {
      MatchesDecides(OutcomesOf(acts, id), s.stages[id], EffectsOf(s.log, id));
    }
  }

  lemma MatchesDecides(os: seq<Outcome>, st: Stage, effects: seq<Effect>)
    requires Matches(os, st, effects) && (os == [] ==> !Ends(st, Deleted))
    ensures effects != [] ==> |os| >= 2 && os[0] != Failure
    ensures Ends(st, Deleted) <==> |os| == 6 && forall k :: 0 <= k < 6 ==> !FailsAt(k, os[k])
  {
    if |os| >= 2 {
      assert !FailsAt(0, os[0]);
    }
    if |os| == 6 {
      assert !FailsAt(5, os[5]);
    }
  }

  lemma {:induction false} OutcomesExtend(acts: seq<Action>, more: seq<Action>, id: nat)
    ensures OutcomesOf(acts, id) <= OutcomesOf(acts + more, id)
  {
    if more == [] {
      assert acts + more == acts;
    } else {
      var n := |more| - 1;
      assert acts + more == acts + more[..n] + [more[n]];
      OutcomesExtend(acts, more[..n], id);
      OutcomesAfter(acts + more[..n], more[n], id);
    }
  }

  // After a failed step a handler does nothing any more, whatever follows.
  lemma FailureIsFinal(acts: seq<Action>, more: seq<Action>, id: nat)
    requires Exec(INITIAL, acts).Some? && Exec(INITIAL, acts + more).Some?
    requires var os := OutcomesOf(acts, id); os != [] && FailsAt(|os| - 1, os[|os| - 1])
    ensures OutcomesOf(acts + more, id) == OutcomesOf(acts, id)
    ensures EffectsOf(Exec(INITIAL, acts + more).value.log, id) == EffectsOf(Exec(INITIAL, acts).value.log, id)
    ensures var os := OutcomesOf(acts, id);
            var s := Exec(INITIAL, acts + more).value;
            id in s.stages && Ends(s.stages[id], AnswerTo(|os| - 1, os[|os| - 1]))
  {
    hide Exec, OutcomesOf, EffectsOf, Matches, Ends, AnswerTo, FailsAt;
    OutcomesExtend(acts, more, id);
    HandlerOfOutcomes(acts, id);
    HandlerOfOutcomes(acts + more, id);
    var s, t := Exec(INITIAL, acts).value, Exec(INITIAL, acts + more).value;
    FailureIsLast(OutcomesOf(acts, id), s.stages[id], EffectsOf(s.log, id),
                  OutcomesOf(acts + more, id), t.stages[id], EffectsOf(t.log, id));
  }

  lemma FailureIsLast(os: seq<Outcome>, st: Stage, effects: seq<Effect>, os': seq<Outcome>, st': Stage, effects': seq<Effect>)
    requires Matches(os, st, effects) && Matches(os', st', effects')
    requires os <= os' && os != [] && FailsAt(|os| - 1, os[|os| - 1])
    ensures os' == os && effects' == effects && Ends(st', AnswerTo(|os| - 1, os[|os| - 1]))
  {
    var k := |os| - 1;
    assert os'[k] == os[k];
  }

  lemma HandlerOfOutcomes(acts: seq<Action>, id: nat)
    requires Exec(INITIAL, acts).Some? && OutcomesOf(acts, id) != []
    ensures var s := Exec(INITIAL, acts).value; id in s.stages && Matches(OutcomesOf(acts, id), s.stages[id], EffectsOf(s.log, id))
  {
    assert History([], INITIAL, id);
    RunKeepsHistory([], INITIAL, acts, id);
    assert [] + acts == acts;
    if id !in Exec(INITIAL, acts).value.stages {
      NoOutcomesYet(acts, id);
    }
  }

  // Whichever way the handlers end, they give back exactly what they took: once all of them have ended and no
  // command is under way the semaphore is as new.
  lemma NothingLeaks(acts: seq<Action>)
    requires Exec(INITIAL, acts).Some?
    requires var s := Exec(INITIAL, acts).value;
             s.session.commands == {} && forall id :: id in s.stages ==> s.stages[id].Left?
    ensures Exec(INITIAL, acts).value.session == NEW_SESSION
  {
    ExecKeepsInv(INITIAL, acts);
    var s := Exec(INITIAL, acts).value;
    var w := s.session.sem.waiters;
    if w != [] {
      assert IsWaiting(s.session, w[0].id);
      assert Claims(s.session, w[0].id);
    }
    forall id ensures id !in s.session.signOffs {
      assert !Claims(s.session, id);
    }
    assert s.session.signOffs == {};
  }

  lemma ReleaseHandsOn(s: Session, id: nat)
    requires SignOff.Inv(s) && s.signOffs == {id} && s.sem.cur == ALL
    ensures var s' := SignOff.Step(s, EndSignOff(id));
            && s'.signOffs == (if s.sem.waiters == [] then {} else {s.sem.waiters[0].id})
            && s'.sem.cur == (if s.sem.waiters == [] then 0 else ALL)
  {
    hide Notify;
    NotifyLetsInTheFirst(s.sem.(cur := 0));
  }

  lemma HolderLeaves(s: State, id: nat)
    requires StagesOk(s) && Step(s, Leave(id)).Some?
    ensures var t := s.session;
            var t' := Step(s, Leave(id)).value.session;
            && t.sem.cur == ALL && t.signOffs == {id}
            && t'.signOffs == (if t.sem.waiters == [] then {} else {t.sem.waiters[0].id})
            && t'.sem.cur == (if t.sem.waiters == [] then 0 else ALL)
  {
    hide SignOff.Step;
    HolderIsAlone(s, id);
    ReleaseHandsOn(s.session, id);
  }

  // The release itself: from everything held to everything free, or handed on to the sign-off that has waited
  // longest.
  lemma LeavingHandsOn(acts: seq<Action>, id: nat)
    requires Exec(INITIAL, acts).Some?
    requires Step(Exec(INITIAL, acts).value, Leave(id)).Some?
    ensures var s := Exec(INITIAL, acts).value.session;
            var s' := Step(Exec(INITIAL, acts).value, Leave(id)).value.session;
            && s.sem.cur == ALL && s.signOffs == {id}
            && s'.signOffs == (if s.sem.waiters == [] then {} else {s.sem.waiters[0].id})
            && s'.sem.cur == (if s.sem.waiters == [] then 0 else ALL)
  {
    ExecKeepsInv(INITIAL, acts);
    HolderLeaves(Exec(INITIAL, acts).value, id);
  }
}
