/**
 * The native script function record of lib/base/function.hpp: a display
 * name, a wrapped callback and two attribute flags, fixed at construction.
 */
module ScriptFunction {
  import opened Wrappers

  /** Stand-in for the runtime's dynamic value type (numbers, strings, ...). */
  datatype Value = Empty | Number(n: int) | Str(s: string) | Boolean(b: bool)

  /** What a wrapped callback can raise: an arity or type mismatch found by the
      argument wrapper, or an error from the host code itself. */
  datatype InvocationError = ArityOrType(message: string) | Raised(message: string)

  /** Opaque identity of the callback passed to a registration macro. Two
      records holding the same token wrap the same callable. */
  datatype Callback = Callback(id: nat)

  /** What each callback does when called: given the callback, the bound
      receiver if there is one, and the arguments, its result or its error.
      The wrapper that produces this behaviour is not part of the model. */
  type Behaviour = (Callback, Option<Value>, seq<Value>) -> Result<Value, InvocationError>

  /**
   * A Function object. Its constructor takes the flags `sideEffectFree` and
   * `deprecated` with default `false`, and nothing changes it afterwards.
   */
  datatype Function = Function(name: string, callback: Callback,
                               sideEffectFree: bool := false, deprecated: bool := false)
  {
    function IsSideEffectFree(): (r: bool) { sideEffectFree }

    function IsDeprecated(): (r: bool) { deprecated }

    /** Invoke(arguments): calls the callback with no receiver bound; the
        argument list defaults to the empty one. */
    function Invoke(behaviour: Behaviour, arguments: seq<Value> := []): (r: Result<Value, InvocationError>)
    {
      behaviour(callback, None, arguments)
    }

    /** Invoke(otherThis, arguments): calls the callback with `otherThis` as the
        receiver; the argument list defaults to the empty one. */
    function InvokeBound(behaviour: Behaviour, otherThis: Value, arguments: seq<Value> := []): (r: Result<Value, InvocationError>)
    {
      behaviour(callback, Some(otherThis), arguments)
    }
  }

  /** Both flags default to false, and the accessors return exactly what the
      constructor was given. */
  lemma ConstructorFlags(name: string, callback: Callback, sideEffectFree: bool, deprecated: bool)
    ensures !Function(name, callback).IsSideEffectFree() && !Function(name, callback).IsDeprecated()
    ensures Function(name, callback, sideEffectFree).IsSideEffectFree() == sideEffectFree
    ensures !Function(name, callback, sideEffectFree).IsDeprecated()
    ensures Function(name, callback, sideEffectFree, deprecated).IsSideEffectFree() == sideEffectFree
    ensures Function(name, callback, sideEffectFree, deprecated).IsDeprecated() == deprecated
  {
  }

  /** Both Invoke forms pass the empty argument list when none is given, and
      the unbound form passes no receiver. */
  lemma InvokeDefaults(f: Function, behaviour: Behaviour, otherThis: Value)
    ensures f.Invoke(behaviour) == f.Invoke(behaviour, []) == behaviour(f.callback, None, [])
    ensures f.InvokeBound(behaviour, otherThis) == f.InvokeBound(behaviour, otherThis, [])
  {
  }

  /** Invocation depends on the callback alone: records that differ only in
      their name or flags give the same result (and the same error) on the
      same receiver and arguments. */
  lemma InvokeDependsOnlyOnCallback(f: Function, h: Function, behaviour: Behaviour,
                                    otherThis: Value, arguments: seq<Value>)
    requires f.callback == h.callback
    ensures f.Invoke(behaviour, arguments) == h.Invoke(behaviour, arguments)
    ensures f.InvokeBound(behaviour, otherThis, arguments) == h.InvokeBound(behaviour, otherThis, arguments)
  {
  }
}
