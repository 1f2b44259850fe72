/** The connection state machine (connection-state.ts). */
module ConnectionState {
  datatype State = Idle | Connecting | Connected | Reconnecting | Disconnected

  /** The transition table. */
  predicate Allowed(from: State, to: State) {
    match from
    case Idle => to.Connecting?
    case Connecting => to.Connected? || to.Disconnected?
    case Connected => to.Reconnecting? || to.Disconnected?
    case Reconnecting => to.Connected? || to.Disconnected?
    case Disconnected => to.Connecting? || to.Reconnecting?
  }

  class ConnectionStateMachine {
    var currentState: State
    /** The states handed to the handlers so far. */
    ghost var announced: seq<State>

    constructor ()
      ensures currentState == Idle && announced == []
    {
      currentState := Idle;
      announced := [];
    }

    /** `ok` is false when the source throws. */
    method Transition(to: State) returns (ok: bool)
      modifies this
      ensures ok <==> Allowed(old(currentState), to)
      ensures ok ==> currentState == to && announced == old(announced) + [to]
      ensures !ok ==> currentState == old(currentState) && announced == old(announced)
    {
      if !Allowed(currentState, to) {
        return false;
      }
      currentState := to;
      announced := announced + [to];
      return true;
    }
  }
}
