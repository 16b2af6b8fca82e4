/** The agent's five-state machine (domain/state_machine.py). */
module AgentStates {
  import opened Wrappers

  datatype AgentState = MicOff | Standby | Transcribing | Interactive | ErrorRecoverable

  /** The `_ALLOWED` table. */
  function Allowed(from: AgentState): set<AgentState> {
    match from
    case MicOff => {Standby, Transcribing, Interactive}
    case Standby => {MicOff, Transcribing, Interactive}
    case Transcribing => {MicOff, Standby, Interactive, ErrorRecoverable}
    case Interactive => {MicOff, Standby, Transcribing, ErrorRecoverable}
    case ErrorRecoverable => {MicOff, Standby, Transcribing, Interactive}
  }

  /** The two fields of the machine, as a value. */
  datatype Machine = Machine(state: AgentState, previousSafe: AgentState)

  function Boot(initial: AgentState): Machine {
    Machine(initial, initial)
  }

  /** `None` stands for a raised InvalidTransition. */
  function Moved(m: Machine, requested: AgentState): Option<Machine> {
    if requested == m.state then Some(m)
    else if requested !in Allowed(m.state) then None
    else if requested != ErrorRecoverable then Some(Machine(requested, requested))
    else Some(m.(state := requested))
  }

  function Recovered(m: Machine): Option<Machine> {
    if m.state != ErrorRecoverable then None else Moved(m, m.previousSafe)
  }

  /** The table in one sentence: the only refusals are entering the error state from a state
      that never listens remotely. In particular switching the microphone off always works. */
  lemma RefusedExactly(m: Machine, requested: AgentState)
    ensures Moved(m, requested).None? <==> requested == ErrorRecoverable && m.state in {MicOff, Standby}
    ensures Moved(m, requested).Some? ==> Moved(m, requested).value.state == requested
  {
    match m.state case MicOff => case Standby => case Transcribing => case Interactive => case ErrorRecoverable =>
  }

  datatype MachineOp = Request(to: AgentState) | Recover

  function MachineStep(m: Machine, op: MachineOp): Machine {
    match op
    case Request(to) => Moved(m, to).GetOr(m)
    case Recover => Recovered(m).GetOr(m)
  }

  function MachineRun(initial: AgentState, ops: seq<MachineOp>): Machine {
    if |ops| == 0 then Boot(initial)
    else MachineStep(MachineRun(initial, ops[..|ops| - 1]), ops[|ops| - 1])
  }

  /** The last state other than the error state that the run has been in, if any. */
  ghost function LastSafe(initial: AgentState, ops: seq<MachineOp>): Option<AgentState> {
    var now := MachineRun(initial, ops).state;
    if now != ErrorRecoverable then Some(now)
    else if |ops| == 0 then None
    else LastSafe(initial, ops[..|ops| - 1])
  }

  /** Over every run, `previous_safe_state` is the last safe state visited. */
  lemma {:induction false} PreviousSafeIsLastSafe(initial: AgentState, ops: seq<MachineOp>)
    ensures MachineRun(initial, ops).previousSafe == LastSafe(initial, ops).GetOr(ErrorRecoverable)
    ensures MachineRun(initial, ops).state != ErrorRecoverable ==>
              MachineRun(initial, ops).previousSafe == MachineRun(initial, ops).state
  {
    if |ops| > 0 {
      PreviousSafeIsLastSafe(initial, ops[..|ops| - 1]);
    }
  }

  /** `recover` from the error state gets out of it exactly when the run has been in some other
      state before: a machine that was itself started in the error state stays stuck. */
  lemma RecoverLeavesErrorExactly(initial: AgentState, ops: seq<MachineOp>)
    requires MachineRun(initial, ops).state == ErrorRecoverable
    ensures MachineRun(initial, ops + [Recover]).state != ErrorRecoverable <==>
            initial != ErrorRecoverable || exists k | 0 <= k <= |ops| ::
                MachineRun(initial, ops[..k]).state != ErrorRecoverable
  {
    assert (ops + [Recover])[..|ops|] == ops;
    PreviousSafeIsLastSafe(initial, ops);
    SafeVisited(initial, ops);
    RefusedExactly(MachineRun(initial, ops), MachineRun(initial, ops).previousSafe);
  }

  lemma {:induction false} SafeVisited(initial: AgentState, ops: seq<MachineOp>)
    ensures LastSafe(initial, ops).Some? <==> exists k | 0 <= k <= |ops| ::
            MachineRun(initial, ops[..k]).state != ErrorRecoverable
    ensures LastSafe(initial, ops).Some? ==> LastSafe(initial, ops).value != ErrorRecoverable
    ensures initial != ErrorRecoverable ==> LastSafe(initial, ops).Some?
  {
    assert ops[..|ops|] == ops;
    if |ops| > 0 {
      var shorter := ops[..|ops| - 1];
      SafeVisited(initial, shorter);
      assert forall k | 0 <= k <= |shorter| :: shorter[..k] == ops[..k];
    }
  }

  datatype StateTransition = StateTransition(previous: AgentState, current: AgentState, reason: string)
  datatype InvalidTransition = InvalidTransition(previous: AgentState, requested: AgentState)

  class AgentStateMachine {
    var state: AgentState
    var previousSafe: AgentState

    ghost function View(): Machine
      reads this
    {
      Machine(state, previousSafe)
    }

    constructor (initial: AgentState)
      ensures View() == Boot(initial)
    {
      state, previousSafe := initial, initial;
    }

    method Transition(requested: AgentState, reason: string) returns (r: Result<StateTransition, InvalidTransition>)
      modifies this
      ensures View() == Moved(old(View()), requested).GetOr(old(View()))
      ensures r == if Moved(old(View()), requested).Some?
                   then Ok(StateTransition(old(state), requested, reason))
                   else Err(InvalidTransition(old(state), requested))
    {
      var previous := state;
      if requested == previous {
        return Ok(StateTransition(previous, requested, reason));
      }
      if requested !in Allowed(previous) {
        return Err(InvalidTransition(previous, requested));
      }
      if requested != ErrorRecoverable {
        previousSafe := requested;
      }
      state := requested;
      r := Ok(StateTransition(previous, requested, reason));
    }

    method Recover(reason: string) returns (r: Result<StateTransition, InvalidTransition>)
      modifies this
      ensures View() == Recovered(old(View())).GetOr(old(View()))
      ensures r == if Recovered(old(View())).Some?
                   then Ok(StateTransition(old(state), old(previousSafe), reason))
                   else Err(InvalidTransition(old(state), old(previousSafe)))
    {
      var target := previousSafe;
      if state != ErrorRecoverable {
        return Err(InvalidTransition(state, target));
      }
      r := Transition(target, reason);
    }
  }
}
