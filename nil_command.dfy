/** The no-op command of src/Command/Branch/Nil.php: a context carrier with no state, used where
    a relation contributes nothing to the command graph. */
module NilCommand {
  import opened Php

  /** A call of the context-carrier interface that Nil implements. */
  datatype Call =
    | WaitContext(key: string, required: bool)
    | Register(key: string, value: Value, isFresh: bool, stream: int)
    | Execute
    | Complete
    | RollBack

  /** Everything a caller can observe of a context carrier. */
  datatype Observation = Observation(ready: bool, executed: bool, context: map<string, Value>)

  /** Nil has no fields, so it has a single value. */
  datatype Nil = Nil {

    function IsReady(): bool { true }

    function IsExecuted(): bool { false }

    function GetContext(): map<string, Value> { map[] }

    function Observe(): Observation
    {
      Observation(IsReady(), IsExecuted(), GetContext())
    }

    /** The command after each of its mutators: none of them does anything. */
    function WaitContext(key: string, required: bool): Nil { this }

    function Register(key: string, value: Value, isFresh: bool, stream: int): Nil { this }

    function Execute(): Nil { this }

    function Complete(): Nil { this }

    function RollBack(): Nil { this }

    function Apply(call: Call): Nil
    {
      match call
      case WaitContext(key, required) => WaitContext(key, required)
      case Register(key, value, isFresh, stream) => Register(key, value, isFresh, stream)
      case Execute => Execute()
      case Complete => Complete()
      case RollBack => RollBack()
    }
  }

  /** The command after a sequence of calls, first to last. */
  function Run(n: Nil, calls: seq<Call>): Nil
  {
    if calls == [] then n else Run(n.Apply(calls[0]), calls[1..])
  }

  /** No single call changes what can be observed, whatever its arguments: a required wait does
      not make Nil un-ready, `register` leaves the context empty, `execute` does not mark it
      executed. */
  lemma CallChangesNothing(n: Nil, call: Call)
    ensures n.Apply(call).Observe() == n.Observe() == Observation(true, false, map[])
  {
  }

  /** Whatever was called before, Nil is ready, not executed and carries the empty context. */
  lemma {:induction false} ObservationAfterAnyCalls(calls: seq<Call>)
    ensures Run(Nil, calls).Observe() == Observation(true, false, map[])
  {
    if calls != [] {
      ObservationAfterAnyCalls(calls[1..]);
    }
  }
}
