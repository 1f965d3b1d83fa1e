/**
 * Python-level values and exceptions shared by the model of celery's task engine.
 *
 * The source is dynamically typed and leans on truthiness (`x or default`,
 * `if countdown:`); `Value` makes the handful of value kinds the core inspects
 * explicit, and `Truthy` states Python's rule for them.
 */
module Python {

  datatype Option<+T> = None | Some(value: T)

  /** A computation that either returns `value` or raises `error`. */
  datatype Result<+T, +E> = Ok(value: T) | Err(error: E)

  /** A value as it travels through a task envelope or a callback. */
  datatype Value =
    | VNone
    | VBool(b: bool)
    | VInt(i: int)
    | VStr(s: string)
    | VList(items: seq<Value>)
    | VTuple(elems: seq<Value>)
    | VDict(entries: map<string, Value>)
      /** The ISO-8601 text `datetime.isoformat()` gives for absolute time `t`; its characters are left abstract. */
    | VIso(t: int)
      /** Any other object (a callable, a datetime, a result handle); Python treats it as true. */
    | VObject(id: nat)

  /** Python's truth value of `v`. */
  predicate Truthy(v: Value) {
    match v
    case VNone => false
    case VBool(b) => b
    case VInt(i) => i != 0
    case VStr(s) => s != ""
    case VList(items) => items != []
    case VTuple(elems) => elems != []
    case VDict(entries) => entries != map[]
    case VIso(_) => true
    case VObject(_) => true
  }

  /** Whether `v` may be used as a dictionary key (lists and dicts may not, nor tuples holding them). */
  predicate Hashable(v: Value) {
    match v
    case VList(_) => false
    case VDict(_) => false
    case VTuple(elems) => forall i :: 0 <= i < |elems| ==> Hashable(elems[i])
    case _ => true
  }

  /** `v or default`: `v` itself when it is true, `default` otherwise. */
  function Or(v: Value, default: Value): Value {
    if Truthy(v) then v else default
  }

  /** An optional string argument is truthy: given, and not empty. */
  predicate Given(o: Option<string>) {
    o.Some? && o.value != ""
  }

  /** An optional integer argument is truthy: given, and not zero. */
  predicate GivenInt(o: Option<int>) {
    o.Some? && o.value != 0
  }

  /** `d.get(k)`: the value stored under `k`, or None. */
  function Get(d: map<string, Value>, k: string): Value {
    if k in d then d[k] else VNone
  }

  /** A class, by its defining module and its name. */
  datatype ClassName = ClassName(moduleName: string, name: string)

  const SystemExit := ClassName("exceptions", "SystemExit")
  const KeyboardInterrupt := ClassName("exceptions", "KeyboardInterrupt")
  const BaseExceptionClass := ClassName("exceptions", "BaseException")
  const ExceptionClass := ClassName("exceptions", "Exception")
  const ObjectClass := ClassName("__builtin__", "object")
  const WrapperClass := ClassName("celery.backends.base", "UnpickleableExceptionWrapper")

  /**
   * An exception instance. `Instance` is any exception, given with its class's
   * method resolution order (the class itself first); the second variant is the
   * portable wrapper defined in celery/backends/base.py, which keeps the
   * original exception's module, class name and arguments as plain data.
   */
  datatype PyException =
    | Instance(cls: ClassName, mro: seq<ClassName>, args: seq<Value>)
    | UnpickleableExceptionWrapper(excModule: string, excCls: string, excArgs: seq<Value>)
  {
    /** `exc.__class__` */
    function Class(): ClassName {
      match this
      case Instance(cls, _, _) => cls
      case UnpickleableExceptionWrapper(_, _, _) => WrapperClass
    }

    /** `exc.__class__.mro()` */
    function Mro(): seq<ClassName> {
      match this
      case Instance(_, mro, _) => mro
      case UnpickleableExceptionWrapper(_, _, _) => [WrapperClass, ExceptionClass, BaseExceptionClass, ObjectClass]
    }

    /** `exc.args` */
    function Args(): seq<Value> {
      match this
      case Instance(_, _, args) => args
      case UnpickleableExceptionWrapper(m, c, a) => [VStr(m), VStr(c), VTuple(a)]
    }

    /** `isinstance(exc, cls)` */
    predicate IsA(cls: ClassName) {
      cls in Mro()
    }
  }
}
