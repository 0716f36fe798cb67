/**
 * The token caches of the CoAP gateway. ExchangeCache (authorization code to token) and RefreshCache (refresh
 * token to token) run the same protocol; "code" stands for either value and "provider" for the exchange or the
 * fan-out refresh. The cell is the mutex-guarded part; a state machine gives every interleaving of callers.
 */
module SingleFlight {
  import opened Records

  // ---- The guarded cell ------------------------------------------------------------------------------

  // Futures are numbered in the order of their creation.
  datatype Cell = Cell(token: Option<nat>, code: string)

  const EMPTY_CELL := Cell(None, "")

  // The cell afterwards, the future to use, and whether the caller has to fill it.
  function Elect(c: Cell, code: string, newFuture: nat): (Cell, nat, bool) {
    if c.token.None? || c.code != code then (Cell(Some(newFuture), code), newFuture, true)
    else (c, c.token.value, false)
  }

  class TokenCache {
    var token: Option<nat>
    var code: string

    ghost function View(): Cell
      reads this
    {
      Cell(token, code)
    }

    constructor ()
      ensures View() == EMPTY_CELL
    {
      token, code := None, "";
    }

    method GetFutureToken(authorizationCode: string, newFuture: nat) returns (f: nat, elected: bool)
      modifies this
      ensures (View(), f, elected) == Elect(old(View()), authorizationCode, newFuture)
    {
      if token.None? || code != authorizationCode {
        token := Some(newFuture);
        code := authorizationCode;
        return newFuture, true;
      }
      return token.value, false;
    }

    method Clear()
      modifies this
      ensures View() == EMPTY_CELL
    {
      code := "";
      token := None;
    }
  }

  // ---- All interleavings -----------------------------------------------------------------------------

  // What a provider answers: a token or an error.
  datatype Answer = Token(token: string) | Error(error: string)

  datatype Result = Answered(answer: Answer) | InvalidCode | ContextDone

  datatype Caller =
    | Calling(code: string, f: nat)              // elected, its provider call is on the way
    | Waiting(code: string, f: nat)              // waits for the future of another caller
    | Returned(code: string, f: nat, result: Result)

  datatype Future = Future(code: string, answer: Option<Answer>)

  datatype Event = Elected(code: string, f: nat) | Cleared

  datatype Call = Call(f: nat, code: string, answer: Answer)

  // `log` and `calls` only record: the elections and clears, and the completed provider calls.
  datatype State = State(cell: Cell, futures: seq<Future>, callers: map<nat, Caller>, log: seq<Event>, calls: seq<Call>)

  const INITIAL := State(EMPTY_CELL, [], map[], [], [])

  datatype Action =
    | Enter(id: nat, code: string)
    | ProviderAnswers(id: nat, answer: Answer)
    | Wake(id: nat)
    | GiveUp(id: nat)
    | Clear

  // A future is written once; later writes do nothing.
  function SetOnce(f: Future, answer: Answer): Future {
    if f.answer.Some? then f else f.(answer := Some(answer))
  }

  function Step(s: State, a: Action): Option<State> {
    match a
    case Enter(id, code) =>
      if id in s.callers then None
      else if code == "" then Some(s.(callers := s.callers[id := Returned(code, 0, InvalidCode)]))
      else
        var (cell, f, elected) := Elect(s.cell, code, |s.futures|);
        if elected then
          Some(State(cell, s.futures + [Future(code, None)], s.callers[id := Calling(code, f)], s.log + [Elected(code, f)], s.calls))
        else Some(s.(callers := s.callers[id := Waiting(code, f)]))
    case ProviderAnswers(id, answer) =>
      if id in s.callers && s.callers[id].Calling? && s.callers[id].f < |s.futures| then
        var Calling(code, f) := s.callers[id];
        Some(s.(futures := s.futures[f := SetOnce(s.futures[f], answer)],
                callers := s.callers[id := Returned(code, f, Answered(answer))],
                calls := s.calls + [Call(f, code, answer)]))
      else None
    case Wake(id) =>
      if id in s.callers && s.callers[id].Waiting? && s.callers[id].f < |s.futures| && s.futures[s.callers[id].f].answer.Some? then
        var Waiting(code, f) := s.callers[id];
        Some(s.(callers := s.callers[id := Returned(code, f, Answered(s.futures[f].answer.value))]))
      else None
    case GiveUp(id) =>
      if id in s.callers && s.callers[id].Waiting? then
        Some(s.(callers := s.callers[id := Returned(s.callers[id].code, s.callers[id].f, ContextDone)]))
      else None
    case Clear => Some(s.(cell := EMPTY_CELL, log := s.log + [Cleared]))
  }

  function Exec(s: State, acts: seq<Action>): Option<State>
    decreases |acts|
  {
    if acts == [] then Some(s)
    else
      match Step(s, acts[0])
      case None => None
      case Some(s') => Exec(s', acts[1..])
  }

  // ---- The invariant ---------------------------------------------------------------------------------

  ghost predicate CellOk(s: State) {
    s.cell.token.Some? ==>
      s.cell.token.value < |s.futures| && s.futures[s.cell.token.value].code == s.cell.code && s.cell.code != ""
  }

  ghost predicate CallerOk(s: State, c: Caller) {
    match c
    case Calling(code, f) => f < |s.futures| && s.futures[f] == Future(code, None)
    case Waiting(code, f) => f < |s.futures| && s.futures[f].code == code
    case Returned(code, f, Answered(answer)) => f < |s.futures| && s.futures[f] == Future(code, Some(answer))
    case _ => true
  }

  ghost predicate CallersOk(s: State) {
    && (forall id :: id in s.callers ==> CallerOk(s, s.callers[id]))
    && (forall i, j | i in s.callers && j in s.callers && s.callers[i].Calling? && s.callers[j].Calling? ::
          s.callers[i].f == s.callers[j].f ==> i == j)
  }

  // A future without an answer has a caller at work on it.
  ghost predicate NobodyOrphaned(s: State) {
    forall f :: 0 <= f < |s.futures| && s.futures[f].answer.None? ==> BeingCalled(s, f)
  }

  ghost predicate BeingCalled(s: State, f: nat) {
    exists id :: id in s.callers && s.callers[id].Calling? && s.callers[id].f == f
  }

  // The answers are those of the provider calls, one call a future.
  ghost predicate CallsOk(s: State) {
    && (forall i :: 0 <= i < |s.calls| ==>
          s.calls[i].f < |s.futures| && s.futures[s.calls[i].f] == Future(s.calls[i].code, Some(s.calls[i].answer)))
    && (forall i, j :: 0 <= i < j < |s.calls| ==> s.calls[i].f != s.calls[j].f)
    && (forall f :: 0 <= f < |s.futures| && s.futures[f].answer.Some? ==>
          Call(f, s.futures[f].code, s.futures[f].answer.value) in s.calls)
  }

  predicate Separates(e: Event, code: string) { e.Cleared? || e.code != code }

  ghost predicate SeparatedBetween(log: seq<Event>, i: int, j: int, code: string)
    requires 0 <= i <= j <= |log|
  {
    exists k :: i < k < j && Separates(log[k], code)
  }

  ghost predicate LogOk(s: State) {
    && (forall i, j :: 0 <= i < j < |s.log| && s.log[i].Elected? && s.log[j].Elected? && s.log[i].code == s.log[j].code ==>
          SeparatedBetween(s.log, i, j, s.log[i].code))
    && (forall i :: 0 <= i < |s.log| && s.log[i].Elected? ==>
          SeparatedBetween(s.log, i, |s.log|, s.log[i].code) || s.cell == Cell(Some(s.log[i].f), s.log[i].code))
  }

  // Every future was elected for its code, once.
  ghost predicate FuturesLogged(s: State) {
    && (forall f :: 0 <= f < |s.futures| ==> Elected(s.futures[f].code, f) in s.log)
    && (forall i :: 0 <= i < |s.log| && s.log[i].Elected? ==> s.log[i].f < |s.futures| && s.futures[s.log[i].f].code == s.log[i].code)
    && (forall i, j :: 0 <= i < j < |s.log| && s.log[i].Elected? && s.log[j].Elected? ==> s.log[i].f != s.log[j].f)
  }

  // The cell is what the last recorded event left.
  function CellOf(log: seq<Event>): Cell {
    if log == [] then EMPTY_CELL
    else
      match log[|log| - 1]
      case Cleared => EMPTY_CELL
      case Elected(code, f) => Cell(Some(f), code)
  }

  ghost predicate Inv(s: State) {
    s.cell == CellOf(s.log) && CellOk(s) && CallersOk(s) && NobodyOrphaned(s) && CallsOk(s) && LogOk(s) && FuturesLogged(s)
  }

  // ---- Each step keeps it ----------------------------------------------------------------------------

  lemma EnterKeeps(s: State, id: nat, code: string)
    requires Inv(s) && Step(s, Enter(id, code)).Some?
    ensures Inv(Step(s, Enter(id, code)).value)
  {
    var s' := Step(s, Enter(id, code)).value;
    if code != "" && Elect(s.cell, code, |s.futures|).2 {
      ElectedKeepsCallers(s, s', id, code);
      ElectionLogged(s, s', code);
    } else {
      NewCallerKeeps(s, s', id);
    }
  }

  // A caller that joins a future, or is turned away.
  lemma NewCallerKeeps(s: State, s': State, id: nat)
    requires CallersOk(s) && NobodyOrphaned(s) && id !in s.callers && id in s'.callers
    requires s' == s.(callers := s.callers[id := s'.callers[id]])
    requires !s'.callers[id].Calling? && CallerOk(s, s'.callers[id])
    ensures CallersOk(s') && NobodyOrphaned(s')
  {
    forall k | k in s'.callers ensures CallerOk(s', s'.callers[k]) {
      assert CallerOk(s, s'.callers[k]);
    }
    forall f | 0 <= f < |s'.futures| && s'.futures[f].answer.None? ensures BeingCalled(s', f) {
      assert BeingCalled(s, f);
      var k :| k in s.callers && s.callers[k].Calling? && s.callers[k].f == f;
      assert s'.callers[k] == s.callers[k];
    }
  }

  lemma ElectedKeepsCallers(s: State, s': State, id: nat, code: string)
    requires CallersOk(s) && NobodyOrphaned(s) && CallsOk(s) && id !in s.callers
    requires s'.futures == s.futures + [Future(code, None)] && s'.calls == s.calls
    requires s'.callers == s.callers[id := Calling(code, |s.futures|)]
    ensures CallersOk(s') && NobodyOrphaned(s') && CallsOk(s')
  {
    var n := |s.futures|;
    assert forall f :: 0 <= f < n ==> s'.futures[f] == s.futures[f];
    forall k | k in s'.callers ensures CallerOk(s', s'.callers[k]) {
      assert k != id ==> CallerOk(s, s.callers[k]);
    }
    forall f | 0 <= f < |s'.futures| && s'.futures[f].answer.None? ensures BeingCalled(s', f) {
      if f == n {
        assert s'.callers[id].Calling? && s'.callers[id].f == f;
      } else {
        assert BeingCalled(s, f);
        var k :| k in s.callers && s.callers[k].Calling? && s.callers[k].f == f;
        assert s'.callers[k] == s.callers[k];
      }
    }
    forall i, j | i in s'.callers && j in s'.callers && s'.callers[i].Calling? && s'.callers[j].Calling?
      ensures s'.callers[i].f == s'.callers[j].f ==> i == j
    {
      assert i != id ==> CallerOk(s, s.callers[i]);
      assert j != id ==> CallerOk(s, s.callers[j]);
    }
  }

  lemma SeparationKept(log: seq<Event>, e: Event, i: int, j: int, code: string)
    requires 0 <= i <= j <= |log| && SeparatedBetween(log, i, j, code)
    ensures SeparatedBetween(log + [e], i, j, code) && SeparatedBetween(log + [e], i, |log| + 1, code)
  {
    var k :| i < k < j && Separates(log[k], code);
    assert (log + [e])[k] == log[k];
  }

  lemma SeparatedByLast(log: seq<Event>, e: Event, i: int, code: string)
    requires 0 <= i < |log| && Separates(e, code)
    ensures SeparatedBetween(log + [e], i, |log| + 1, code)
  {
    assert (log + [e])[|log|] == e;
  }

  // Whatever is recorded next: if it is an election, the cell held no future for its code.
  lemma LogExtended(s: State, s': State, e: Event)
    requires LogOk(s) && s'.log == s.log + [e]
    requires e.Elected? ==> s'.cell == Cell(Some(e.f), e.code) && (s.cell.token.None? || s.cell.code != e.code)
    ensures LogOk(s')
  {
    hide SeparatedBetween, Separates;
    var n := |s.log|;
    forall i, j | 0 <= i < j < |s'.log| && s'.log[i].Elected? && s'.log[j].Elected? && s'.log[i].code == s'.log[j].code
      ensures SeparatedBetween(s'.log, i, j, s'.log[i].code)
    {
      assert s'.log[i] == s.log[i];
      assert SeparatedBetween(s.log, i, j, s.log[i].code);
      SeparationKept(s.log, e, i, j, s.log[i].code);
    }
    forall i | 0 <= i < |s'.log| && s'.log[i].Elected?
      ensures SeparatedBetween(s'.log, i, |s'.log|, s'.log[i].code) || s'.cell == Cell(Some(s'.log[i].f), s'.log[i].code)
    {
      if i < n {
        LastEventSeparates(s, s', e, i);
      }
    }
  }

  lemma LastEventSeparates(s: State, s': State, e: Event, i: nat)
    requires LogOk(s) && s'.log == s.log + [e] && i < |s.log| && s.log[i].Elected?
    requires e.Elected? ==> s.cell.token.None? || s.cell.code != e.code
    ensures SeparatedBetween(s'.log, i, |s'.log|, s.log[i].code)
  {
    if SeparatedBetween(s.log, i, |s.log|, s.log[i].code) {
      SeparationKept(s.log, e, i, |s.log|, s.log[i].code);
    } else {
      SeparatedByLast(s.log, e, i, s.log[i].code);
    }
  }

  lemma ElectionLogged(s: State, s': State, code: string)
    requires LogOk(s) && FuturesLogged(s)
    requires s.cell.token.None? || s.cell.code != code
    requires s'.log == s.log + [Elected(code, |s.futures|)] && s'.futures == s.futures + [Future(code, None)]
    requires s'.cell == Cell(Some(|s.futures|), code)
    ensures LogOk(s') && FuturesLogged(s')
  {
    LogExtended(s, s', Elected(code, |s.futures|));
    hide LogOk;
    assert s'.log[|s.log|] == Elected(code, |s.futures|);
    forall f | 0 <= f < |s'.futures| ensures Elected(s'.futures[f].code, f) in s'.log {
      assert f < |s.futures| ==> Elected(s.futures[f].code, f) in s.log;
    }
  }

  lemma AnswerKeeps(s: State, id: nat, answer: Answer)
    requires Inv(s) && Step(s, ProviderAnswers(id, answer)).Some?
    ensures Inv(Step(s, ProviderAnswers(id, answer)).value)
  {
    var s' := Step(s, ProviderAnswers(id, answer)).value;
    assert CallerOk(s, s.callers[id]);
    AnswerKeepsCallers(s, s', id, answer);
    AnswerKeepsCalls(s, s', id, answer);
  }

  lemma AnswerKeepsCallers(s: State, s': State, id: nat, answer: Answer)
    requires CallersOk(s) && NobodyOrphaned(s)
    requires id in s.callers && s.callers[id].Calling? && CallerOk(s, s.callers[id])
    requires s'.futures == s.futures[s.callers[id].f := Future(s.callers[id].code, Some(answer))]
    requires s'.callers == s.callers[id := Returned(s.callers[id].code, s.callers[id].f, Answered(answer))]
    ensures CallersOk(s') && NobodyOrphaned(s')
  {
    forall k | k in s'.callers ensures CallerOk(s', s'.callers[k]) {
      if k != id {
        assert CallerOk(s, s.callers[k]);
      }
    }
    forall g | 0 <= g < |s'.futures| && s'.futures[g].answer.None? ensures BeingCalled(s', g) {
      assert BeingCalled(s, g);
      var k :| k in s.callers && s.callers[k].Calling? && s.callers[k].f == g;
      assert s'.callers[k] == s.callers[k];
    }
  }

  lemma AnswerKeepsCalls(s: State, s': State, id: nat, answer: Answer)
    requires CallsOk(s) && FuturesLogged(s)
    requires id in s.callers && s.callers[id].Calling? && CallerOk(s, s.callers[id])
    requires s'.futures == s.futures[s.callers[id].f := Future(s.callers[id].code, Some(answer))]
    requires s'.calls == s.calls + [Call(s.callers[id].f, s.callers[id].code, answer)] && s'.log == s.log
    ensures CallsOk(s') && FuturesLogged(s')
  {
    assert s'.calls[|s.calls|] == Call(s.callers[id].f, s.callers[id].code, answer);
    forall g | 0 <= g < |s'.futures| && s'.futures[g].answer.Some?
      ensures Call(g, s'.futures[g].code, s'.futures[g].answer.value) in s'.calls
    {
      assert g != s.callers[id].f ==> s'.futures[g] == s.futures[g];
    }
  }

  lemma ReturnKeeps(s: State, s': State, id: nat)
    requires Inv(s) && id in s.callers && s.callers[id].Waiting?
    requires s' == s.(callers := s'.callers) && id in s'.callers && s'.callers == s.callers[id := s'.callers[id]]
    requires s'.callers[id].Returned? && CallerOk(s, s'.callers[id])
    ensures Inv(s')
  {
    forall k | k in s'.callers ensures CallerOk(s', s'.callers[k]) {
      assert CallerOk(s, s'.callers[k]);
    }
    forall f | 0 <= f < |s'.futures| && s'.futures[f].answer.None? ensures BeingCalled(s', f) {
      assert BeingCalled(s, f);
      var k :| k in s.callers && s.callers[k].Calling? && s.callers[k].f == f;
      assert s'.callers[k] == s.callers[k];
    }
  }

  // Callers, futures and calls do not depend on the cell and the log.
  lemma SameCallersKeep(s: State, s': State)
    requires CallersOk(s) && NobodyOrphaned(s) && CallsOk(s)
    requires s'.callers == s.callers && s'.futures == s.futures && s'.calls == s.calls
    ensures CallersOk(s') && NobodyOrphaned(s') && CallsOk(s')
  {
    forall k | k in s'.callers ensures CallerOk(s', s'.callers[k]) {
      assert CallerOk(s, s.callers[k]);
    }
    forall f | 0 <= f < |s'.futures| && s'.futures[f].answer.None? ensures BeingCalled(s', f) {
      assert BeingCalled(s, f);
    }
  }

  lemma ClearKeeps(s: State)
    requires Inv(s)
    ensures Inv(Step(s, Clear).value)
  {
    hide CallersOk, NobodyOrphaned, CallsOk, LogOk;
    var s' := Step(s, Clear).value;
    LogExtended(s, s', Cleared);
    SameCallersKeep(s, s');
  }

  lemma StepKeepsInv(s: State, a: Action)
    requires Inv(s) && Step(s, a).Some?
    ensures Inv(Step(s, a).value)
  {
    hide Inv;
    match a
    case Enter(id, code) => EnterKeeps(s, id, code);
    case ProviderAnswers(id, answer) => AnswerKeeps(s, id, answer);
    case Wake(id) => WaiterKeeps(s, a, id);
    case GiveUp(id) => WaiterKeeps(s, a, id);
    case Clear => ClearKeeps(s);
  }

  lemma WaiterKeeps(s: State, a: Action, id: nat)
    requires Inv(s) && (a == Wake(id) || a == GiveUp(id)) && Step(s, a).Some?
    ensures Inv(Step(s, a).value)
  {
    assert CallerOk(s, s.callers[id]);
    ReturnKeeps(s, Step(s, a).value, id);
  }

  lemma {:induction false} ExecKeepsInv(s: State, acts: seq<Action>)
    requires Inv(s) && Exec(s, acts).Some?
    ensures Inv(Exec(s, acts).value)
    decreases |acts|
  {
    if acts != [] {
      StepKeepsInv(s, acts[0]);
      ExecKeepsInv(Step(s, acts[0]).value, acts[1..]);
    }
  }

  // ---- What callers rely on --------------------------------------------------------------------------

  // A caller that got an answer got that of a provider call for its own code.
  lemma AnswerIsForTheCode(acts: seq<Action>, id: nat)
    requires Exec(INITIAL, acts).Some?
    ensures var s := Exec(INITIAL, acts).value;
            id in s.callers && s.callers[id].Returned? && s.callers[id].result.Answered? ==>
              Call(s.callers[id].f, s.callers[id].code, s.callers[id].result.answer) in s.calls
  {
    ExecKeepsInv(INITIAL, acts);
    var s := Exec(INITIAL, acts).value;
    if id in s.callers {
      assert CallerOk(s, s.callers[id]);
    }
  }

  // The elected caller returns what its provider answers, and puts it into its future if that is still empty; a
  // caller that wakes returns what is in the future it waited for; one without a code is turned away at once,
  // without a call.
  lemma AnswersAreReturned(acts: seq<Action>, id: nat, answer: Answer)
    requires Exec(INITIAL, acts).Some? && id in Exec(INITIAL, acts).value.callers
    ensures var s := Exec(INITIAL, acts).value;
            var c := s.callers[id];
            && (c.Calling? ==>
                  && Step(s, ProviderAnswers(id, answer)).Some?
                  && var t := Step(s, ProviderAnswers(id, answer)).value;
                     && t.callers[id] == Returned(c.code, c.f, Answered(answer))
                     && c.f < |t.futures| && t.futures[c.f] == Future(c.code, Some(answer))
                     && t.calls == s.calls + [Call(c.f, c.code, answer)])
            && (c.Waiting? ==> c.f < |s.futures|)
            && (c.Waiting? && s.futures[c.f].answer.Some? ==>
                  && Step(s, Wake(id)).Some?
                  && Step(s, Wake(id)).value.callers[id] == Returned(c.code, c.f, Answered(s.futures[c.f].answer.value)))
            && (c.Returned? ==> Step(s, ProviderAnswers(id, answer)).None? && Step(s, Wake(id)).None? && Step(s, GiveUp(id)).None?)
            && (c.code == "" ==> c == Returned("", c.f, InvalidCode))
  {
    ExecKeepsInv(INITIAL, acts);
    var s := Exec(INITIAL, acts).value;
    assert CallerOk(s, s.callers[id]);
    CodesOk(INITIAL, acts);
  }

  // Callers without a code never get any further; the others are never turned away for it.
  ghost predicate CodesAreChecked(s: State) {
    forall id :: id in s.callers ==>
      (s.callers[id].code == "" <==> s.callers[id].Returned? && s.callers[id].result == InvalidCode)
  }

  lemma {:induction false} CodesOk(s: State, acts: seq<Action>)
    requires CodesAreChecked(s) && Exec(s, acts).Some?
    ensures CodesAreChecked(Exec(s, acts).value)
    decreases |acts|
  {
    if acts != [] {
      CodesOk(Step(s, acts[0]).value, acts[1..]);
    }
  }

  // Callers that share a future get the same answer, the one who made the call included.
  lemma SharersAgree(acts: seq<Action>, i: nat, j: nat)
    requires Exec(INITIAL, acts).Some?
    ensures var s := Exec(INITIAL, acts).value;
            i in s.callers && j in s.callers && s.callers[i].Returned? && s.callers[j].Returned?
            && s.callers[i].result.Answered? && s.callers[j].result.Answered? && s.callers[i].f == s.callers[j].f ==>
              s.callers[i].result == s.callers[j].result && s.callers[i].code == s.callers[j].code
  {
    ExecKeepsInv(INITIAL, acts);
    var s := Exec(INITIAL, acts).value;
    if i in s.callers && j in s.callers {
      assert CallerOk(s, s.callers[i]) && CallerOk(s, s.callers[j]);
    }
  }

  // Main result: single flight. Each election is for a future of its own and leads to at most one provider
  // call; between two elections for the same code there is a Clear or an election for another code.
  lemma SingleFlightHolds(acts: seq<Action>, i: nat, j: nat)
    requires Exec(INITIAL, acts).Some?
    ensures var s := Exec(INITIAL, acts).value;
            && (i < j < |s.log| && s.log[i].Elected? && s.log[j].Elected? && s.log[i].code == s.log[j].code ==>
                  s.log[i].f != s.log[j].f && exists k :: i < k < j && Separates(s.log[k], s.log[i].code))
            && (i < j < |s.calls| ==> s.calls[i].f != s.calls[j].f)
            && (i < |s.calls| ==> Elected(s.calls[i].code, s.calls[i].f) in s.log)
  {
    ExecKeepsInv(INITIAL, acts);
    var s := Exec(INITIAL, acts).value;
    if i < j < |s.log| && s.log[i].Elected? && s.log[j].Elected? && s.log[i].code == s.log[j].code {
      assert SeparatedBetween(s.log, i, j, s.log[i].code);
    }
  }

  // No waiter is left behind: as long as its future has no answer, the elected caller is still at work on it.
  lemma WaitersAreServed(acts: seq<Action>, id: nat)
    requires Exec(INITIAL, acts).Some?
    ensures var s := Exec(INITIAL, acts).value;
            id in s.callers && s.callers[id].Waiting? ==>
              Step(s, Wake(id)).Some? || BeingCalled(s, s.callers[id].f)
  {
    ExecKeepsInv(INITIAL, acts);
    var s := Exec(INITIAL, acts).value;
    if id in s.callers {
      assert CallerOk(s, s.callers[id]);
    }
  }

  // ---- Failures are kept -----------------------------------------------------------------------------

  // A caller that shares the answered future `f` and cannot get anything else any more.
  ghost predicate BoundTo(s: State, id: nat, f: nat, answer: Answer) {
    && f < |s.futures| && s.futures[f].answer == Some(answer)
    && id in s.callers && s.callers[id].f == f && !s.callers[id].Calling?
    && (s.callers[id].Returned? ==> s.callers[id].result == Answered(answer) || s.callers[id].result == ContextDone)
  }

  lemma {:induction false} StaysBound(s: State, id: nat, f: nat, answer: Answer, acts: seq<Action>)
    requires BoundTo(s, id, f, answer) && Exec(s, acts).Some?
    ensures BoundTo(Exec(s, acts).value, id, f, answer)
    decreases |acts|
  {
    if acts != [] {
      StaysBound(Step(s, acts[0]).value, id, f, answer, acts[1..]);
    }
  }

  // While the cell holds a failed future, whoever enters with its code gets that failure, or gives up waiting;
  // nothing that happens later, a Clear included, changes this for him.
  lemma FailureIsKept(acts: seq<Action>, id: nat, error: string, more: seq<Action>)
    requires Exec(INITIAL, acts).Some?
    requires var s := Exec(INITIAL, acts).value;
             s.cell.token.Some? && s.cell.token.value < |s.futures| && s.futures[s.cell.token.value].answer == Some(Error(error))
    requires var s := Exec(INITIAL, acts).value;
             Step(s, Enter(id, s.cell.code)).Some? && Exec(Step(s, Enter(id, s.cell.code)).value, more).Some?
    ensures var s := Exec(INITIAL, acts).value;
            var c := Exec(Step(s, Enter(id, s.cell.code)).value, more).value.callers;
            id in c && (c[id].Waiting? || (c[id].Returned? && (c[id].result == Answered(Error(error)) || c[id].result == ContextDone)))
  {
    ExecKeepsInv(INITIAL, acts);
    var s := Exec(INITIAL, acts).value;
    StaysBound(Step(s, Enter(id, s.cell.code)).value, id, s.cell.token.value, Error(error), more);
  }

  // The provider is asked again exactly after a Clear or an election for another code; whether the last call
  // for this code failed makes no difference.
  lemma CallsAgainExactly(acts: seq<Action>, id: nat, code: string)
    requires Exec(INITIAL, acts).Some? && code != "" && id !in Exec(INITIAL, acts).value.callers
    ensures var s := Exec(INITIAL, acts).value;
            && Step(s, Enter(id, code)).Some?
            && (Step(s, Enter(id, code)).value.callers[id].Calling? <==> s.log == [] || Separates(s.log[|s.log| - 1], code))
  {
    ExecKeepsInv(INITIAL, acts);
    hide Exec, CellOk, CallersOk, NobodyOrphaned, CallsOk, LogOk, FuturesLogged;
  }

  // Nothing in `acts` makes the cell give up its future for `code`.
  predicate Keeps(acts: seq<Action>, code: string) {
    forall i :: 0 <= i < |acts| ==> !acts[i].Clear? && (acts[i].Enter? ==> acts[i].code == code || acts[i].code == "")
  }

  // Futures are never reused, so a cell that has lost one never has it again.
  lemma {:induction false} NeverComesBack(s: State, f: nat, acts: seq<Action>)
    requires f < |s.futures| && s.cell.token != Some(f) && Exec(s, acts).Some?
    ensures Exec(s, acts).value.cell.token != Some(f)
    decreases |acts|
  {
    if acts != [] {
      NeverComesBack(Step(s, acts[0]).value, f, acts[1..]);
    }
  }

  // A failure, like any answer, stays in the cell exactly until a Clear or an election for another code.
  lemma {:induction false} FailureStaysExactly(s: State, acts: seq<Action>)
    requires s.cell.token.Some? && s.cell.token.value < |s.futures| && s.futures[s.cell.token.value].answer.Some?
    requires Exec(s, acts).Some?
    ensures var t := Exec(s, acts).value;
            && (t.cell == s.cell <==> Keeps(acts, s.cell.code))
            && (t.cell == s.cell ==>
                  && s.cell.token.value < |t.futures|
                  && t.futures[s.cell.token.value].answer == s.futures[s.cell.token.value].answer)
    decreases |acts|
  {
    if acts != [] {
      var a, s1 := acts[0], Step(s, acts[0]).value;
      assert Keeps(acts, s.cell.code) <==>
               !a.Clear? && (a.Enter? ==> a.code == s.cell.code || a.code == "") && Keeps(acts[1..], s.cell.code) by {
        assert acts == [a] + acts[1..];
      }
      if a.Clear? || (a.Enter? && a.code != s.cell.code && a.code != "") {
        NeverComesBack(s1, s.cell.token.value, acts[1..]);
      } else {
        FailureStaysExactly(s1, acts[1..]);
      }
    }
  }

  lemma ExecFirst(s: State, a: Action, rest: seq<Action>)
    requires Step(s, a).Some?
    ensures Exec(s, [a] + rest) == Exec(Step(s, a).value, rest)
  {
    assert ([a] + rest)[1..] == rest;
  }

  // A failed call, and a second caller who is given its error without a call of his own.
  lemma FailureIsShared(code: string, error: string)
    requires code != ""
    ensures var acts := [Enter(0, code)] + ([ProviderAnswers(0, Error(error))] + ([Enter(1, code)] + ([Wake(1)] + [])));
            && Exec(INITIAL, acts).Some?
            && var s := Exec(INITIAL, acts).value;
               && s.calls == [Call(0, code, Error(error))]
               && 1 in s.callers && s.callers[1] == Returned(code, 0, Answered(Error(error)))
  {
    var s1 := Step(INITIAL, Enter(0, code)).value;
    assert s1.callers[0] == Calling(code, 0) && s1.cell == Cell(Some(0), code) && s1.futures == [Future(code, None)];
    var s2 := Step(s1, ProviderAnswers(0, Error(error))).value;
    assert s2.futures == [Future(code, Some(Error(error)))] && s2.calls == [Call(0, code, Error(error))];
    var s3 := Step(s2, Enter(1, code)).value;
    assert s3.callers[1] == Waiting(code, 0);
    var s4 := Step(s3, Wake(1)).value;
    assert Exec(s4, []) == Some(s4);
    assert s4.calls == s2.calls && 1 in s4.callers && s4.callers[1] == Returned(code, 0, Answered(Error(error)));
    hide Step, Exec;
    ExecFirst(s3, Wake(1), []);
    ExecFirst(s2, Enter(1, code), [Wake(1)] + []);
    ExecFirst(s1, ProviderAnswers(0, Error(error)), [Enter(1, code)] + ([Wake(1)] + []));
    ExecFirst(INITIAL, Enter(0, code), [ProviderAnswers(0, Error(error))] + ([Enter(1, code)] + ([Wake(1)] + [])));
  }
}
