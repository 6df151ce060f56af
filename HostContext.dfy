/**
 * The host-side test context (src/test/TestContext.ts): the object whose bound methods
 * the guest imports under `__aspect`. It keeps one pending `actual` and one pending
 * `expected` diagnostic and a log target that collects log entries, the stack of the
 * last failed call and the last abort message.
 *
 * The guest instance is a `Wasm` value: its linear memory, the loader's string
 * decoder, and the outcome of calling a function-table entry (`None` when the call
 * returns, `Some(stack)` with the thrown error's stack text when it throws). The stack
 * text a `new Error()` would capture at each primitive, and `Number.prototype.toString`,
 * are passed in, since neither is visible from here.
 */
module HostContext {
  import opened Wrappers
  import StackTrace

  /**
   * A JavaScript `number` as the guest passes an `f64`: a finite value (+0 is
   * `Finite(0.0)`), -0, either infinity, or NaN.
   */
  datatype F64 = Finite(x: real) | NegZero | PosInf | NegInf | NaN

  /** The `value` field of a diagnostic: never set, `null`, or a number. */
  datatype Value = Undefined | Null | Number(x: F64)

  /** An `ActualValue` record (`target` is always the context's one log target and is not stored). */
  datatype ActualValue = ActualValue(
    message: string,
    stack: string,
    negated: bool,
    value: Value,
    pointer: Option<int>,
    offset: Option<int>,
    bytes: Option<seq<bv8>>)

  /** A `LogValue` record. */
  datatype LogValue = LogValue(
    message: string,
    stack: string,
    value: Value,
    pointer: Option<int>,
    offset: Option<int>,
    bytes: Option<seq<bv8>>)

  /** The `ILogTarget` record. */
  datatype LogTarget = LogTarget(logs: seq<LogValue>, stack: string, message: string)

  datatype Wasm = Wasm(memory: seq<bv8>, getString: int -> string, call: int -> Option<string>)

  /** An object the context only stores (a reporter, a stream, a regular expression, …). */
  datatype Handle = Default | Supplied(id: nat)

  /** The configurable fields of the context. */
  datatype Settings = Settings(
    reporter: Handle,
    stdout: Handle,
    stderr: Handle,
    performanceConfiguration: Handle,
    testRegex: Handle,
    groupRegex: Handle,
    fileName: string)

  /** `ITestContextParameters`: every field optional. */
  datatype Params = Params(
    reporter: Option<Handle>,
    stdout: Option<Handle>,
    stderr: Option<Handle>,
    performanceConfiguration: Option<Handle>,
    testRegex: Option<Handle>,
    groupRegex: Option<Handle>,
    fileName: Option<string>)

  const Defaults: Settings := Settings(Default, Default, Default, Default, Default, Default, "")

  /**
   * The constructor's overrides: a supplied field replaces its default when it is
   * truthy. Every handle is an object and so truthy; the empty file name is not.
   */
  function Configure(props: Option<Params>): Settings
  {
    match props
    case None => Defaults
    case Some(p) =>
      Settings(
        if p.reporter.Some? then p.reporter.value else Defaults.reporter,
        if p.stdout.Some? then p.stdout.value else Defaults.stdout,
        if p.stderr.Some? then p.stderr.value else Defaults.stderr,
        if p.performanceConfiguration.Some? then p.performanceConfiguration.value
        else Defaults.performanceConfiguration,
        if p.testRegex.Some? then p.testRegex.value else Defaults.testRegex,
        if p.groupRegex.Some? then p.groupRegex.value else Defaults.groupRegex,
        if p.fileName.Some? && p.fileName.value != "" then p.fileName.value else Defaults.fileName)
  }

  /** The parameters that supply every field of `s`. */
  function AllOf(s: Settings): Params
  {
    Params(Some(s.reporter), Some(s.stdout), Some(s.stderr), Some(s.performanceConfiguration),
           Some(s.testRegex), Some(s.groupRegex), Some(s.fileName))
  }

  /**
   * `U8.slice(begin, end)`: a negative index counts from the end, every index is
   * clamped to the memory, and an empty range gives no bytes.
   */
  function Clamp(i: int, len: nat): nat
  {
    if i < 0 then (if len + i < 0 then 0 else len + i) else if i > len then len else i
  }

  function Slice(memory: seq<bv8>, begin: int, end: int): (r: seq<bv8>)
    ensures |r| <= |memory|
    ensures 0 <= begin <= end <= |memory| ==> r == memory[begin..end]
  {
    var a := Clamp(begin, |memory|);
    var b := Clamp(end, |memory|);
    if a < b then memory[a..b] else []
  }

  /** The guest's `1 | 0` flag. */
  function IsOne(flag: int): bool
  {
    flag == 1
  }

  class TestContext {
    var settings: Settings
    var wasm: Option<Wasm>
    var actual: Option<ActualValue>
    var expected: Option<ActualValue>
    var logTarget: LogTarget

    /** `new TestContext(props)`. */
    constructor (props: Option<Params>)
      ensures settings == Configure(props)
      ensures wasm == None && actual == None && expected == None
      ensures logTarget == LogTarget([], "", "")
    {
      settings := Configure(props);
      wasm := None;
      actual := None;
      expected := None;
      logTarget := LogTarget([], "", "");
    }

    /** `reportActualNull()`. */
    method ReportActualNull(stack: string)
      modifies this`actual
      ensures actual == Some(ActualValue("null", StackTrace.LogStackTrace(stack), false, Null, None, None, None))
    {
      actual := Some(ActualValue("null", StackTrace.LogStackTrace(stack), false, Null, None, None, None));
    }

    /** `reportExpectedNull(negated)`. */
    method ReportExpectedNull(negated: int, stack: string)
      modifies this`expected
      ensures expected == Some(ActualValue("null", StackTrace.LogStackTrace(stack), IsOne(negated), Null, None, None, None))
    {
      expected := Some(ActualValue("null", StackTrace.LogStackTrace(stack), negated == 1, Null, None, None, None));
    }

    /** `reportActualValue(numericValue)`. */
    method ReportActualValue(numericValue: F64, show: F64 -> string, stack: string)
      modifies this`actual
      ensures actual == Some(ActualValue(show(numericValue), StackTrace.LogStackTrace(stack), false,
                                         Number(numericValue), None, None, None))
    {
      actual := Some(ActualValue(show(numericValue), StackTrace.LogStackTrace(stack), false,
                                 Number(numericValue), None, None, None));
    }

    /** `reportExpectedValue(numericValue, negated)`. */
    method ReportExpectedValue(numericValue: F64, negated: int, show: F64 -> string, stack: string)
      modifies this`expected
      ensures expected == Some(ActualValue(show(numericValue), StackTrace.LogStackTrace(stack), IsOne(negated),
                                           Number(numericValue), None, None, None))
    {
      expected := Some(ActualValue(show(numericValue), StackTrace.LogStackTrace(stack), negated == 1,
                                   Number(numericValue), None, None, None));
    }

    /** `reportActualReference(referencePointer, offset)`: the bytes are copied out of memory. */
    method ReportActualReference(referencePointer: int, offset: int, stack: string)
      requires wasm.Some?
      modifies this`actual
      ensures actual == Some(ActualValue("Reference Value", StackTrace.LogStackTrace(stack), false,
                                         Number(Finite(referencePointer as real)), Some(referencePointer), Some(offset),
                                         Some(Slice(wasm.value.memory, referencePointer, referencePointer + offset))))
    {
      var bytes := Slice(wasm.value.memory, referencePointer, referencePointer + offset);
      actual := Some(ActualValue("Reference Value", StackTrace.LogStackTrace(stack), false,
                                 Number(Finite(referencePointer as real)), Some(referencePointer), Some(offset), Some(bytes)));
    }

    /** `reportExpectedReference(referencePointer, offset, negated)`. */
    method ReportExpectedReference(referencePointer: int, offset: int, negated: int, stack: string)
      requires wasm.Some?
      modifies this`expected
      ensures expected == Some(ActualValue("Reference Value", StackTrace.LogStackTrace(stack), IsOne(negated),
                                           Number(Finite(referencePointer as real)), Some(referencePointer), Some(offset),
                                           Some(Slice(wasm.value.memory, referencePointer, referencePointer + offset))))
    {
      var bytes := Slice(wasm.value.memory, referencePointer, referencePointer + offset);
      expected := Some(ActualValue("Reference Value", StackTrace.LogStackTrace(stack), negated == 1,
                                   Number(Finite(referencePointer as real)), Some(referencePointer), Some(offset), Some(bytes)));
    }

    /** `reportExpectedTruthy(negated)`: no value is recorded. */
    method ReportExpectedTruthy(negated: int, stack: string)
      modifies this`expected
      ensures expected == Some(ActualValue("Truthy Value", StackTrace.LogStackTrace(stack), IsOne(negated),
                                           Undefined, None, None, None))
    {
      expected := Some(ActualValue("Truthy Value", StackTrace.LogStackTrace(stack), negated == 1,
                                   Undefined, None, None, None));
    }

    /** `reportExpectedFalsy(negated)`. */
    method ReportExpectedFalsy(negated: int, stack: string)
      modifies this`expected
      ensures expected == Some(ActualValue("Falsy Value", StackTrace.LogStackTrace(stack), IsOne(negated),
                                           Undefined, None, None, None))
    {
      expected := Some(ActualValue("Falsy Value", StackTrace.LogStackTrace(stack), negated == 1,
                                   Undefined, None, None, None));
    }

    /** `reportExpectedFinite(negated)`. */
    method ReportExpectedFinite(negated: int, stack: string)
      modifies this`expected
      ensures expected == Some(ActualValue("Finite Value", StackTrace.LogStackTrace(stack), IsOne(negated),
                                           Undefined, None, None, None))
    {
      expected := Some(ActualValue("Finite Value", StackTrace.LogStackTrace(stack), negated == 1,
                                   Undefined, None, None, None));
    }

    /** `reportActualString(stringPointer)`: the message is the decoded string. */
    method ReportActualString(stringPointer: int, stack: string)
      requires wasm.Some?
      modifies this`actual
      ensures actual == Some(ActualValue(wasm.value.getString(stringPointer), StackTrace.LogStackTrace(stack), false,
                                         Number(Finite(stringPointer as real)), Some(stringPointer), None, None))
    {
      actual := Some(ActualValue(wasm.value.getString(stringPointer), StackTrace.LogStackTrace(stack), false,
                                 Number(Finite(stringPointer as real)), Some(stringPointer), None, None));
    }

    /** `reportExpectedString(stringPointer, negated)`. */
    method ReportExpectedString(stringPointer: int, negated: int, stack: string)
      requires wasm.Some?
      modifies this`expected
      ensures expected == Some(ActualValue(wasm.value.getString(stringPointer), StackTrace.LogStackTrace(stack),
                                           IsOne(negated), Number(Finite(stringPointer as real)), Some(stringPointer), None, None))
    {
      expected := Some(ActualValue(wasm.value.getString(stringPointer), StackTrace.LogStackTrace(stack),
                                   negated == 1, Number(Finite(stringPointer as real)), Some(stringPointer), None, None));
    }

    /** `abort(reasonPointer, …)`: records the decoded reason; the other arguments are ignored. */
    method Abort(reasonPointer: int, fileNamePointer: int, line: int, col: int)
      requires wasm.Some?
      modifies this`logTarget
      ensures logTarget == old(logTarget).(message := wasm.value.getString(reasonPointer))
    {
      logTarget := logTarget.(message := wasm.value.getString(reasonPointer));
    }

    /**
     * `tryCall(pointer)`: -1 stands for a callback that always succeeds and is not
     * called; otherwise the result is 1 exactly when the call returns, and a throw
     * records the error's filtered stack and nothing else. With no instance the
     * dereference of `wasm` throws a TypeError inside the `try`, whose stack text is
     * `noInstanceStack`; it is caught like any other error.
     */
    method TryCall(pointer: int, noInstanceStack: string) returns (r: int)
      modifies this`logTarget
      ensures r == 0 || r == 1
      ensures pointer == -1 ==> r == 1
      ensures pointer != -1 ==> (r == 1 <==> wasm.Some? && wasm.value.call(pointer).None?)
      ensures r == 1 ==> logTarget == old(logTarget)
      ensures r == 0 && wasm.Some? ==>
        logTarget == old(logTarget).(stack := StackTrace.ErrorStackTrace(wasm.value.call(pointer).value))
      ensures r == 0 && wasm.None? ==>
        logTarget == old(logTarget).(stack := StackTrace.ErrorStackTrace(noInstanceStack))
    {
      if pointer == -1 {
        return 1;
      }
      var outcome := if wasm.Some? then wasm.value.call(pointer) else Some(noInstanceStack);
      if outcome.Some? {
        logTarget := logTarget.(stack := StackTrace.ErrorStackTrace(outcome.value));
        return 0;
      }
      return 1;
    }

    /** `logNull()`: one entry appended, nothing else changed. */
    method LogNull(stack: string)
      modifies this`logTarget
      ensures logTarget == old(logTarget).(logs := old(logTarget.logs)
                + [LogValue("null", StackTrace.LogStackTrace(stack), Undefined, None, None, None)])
    {
      var value := LogValue("null", StackTrace.LogStackTrace(stack), Undefined, None, None, None);
      logTarget := logTarget.(logs := logTarget.logs + [value]);
    }

    /** `clearExpected()`: both pending diagnostics and the failure stack are cleared; logs stay. */
    method ClearExpected()
      modifies this`expected, this`actual, this`logTarget
      ensures expected == None && actual == None
      ensures logTarget == old(logTarget).(stack := "")
    {
      expected := None;
      actual := None;
      logTarget := logTarget.(stack := "");
    }

    /** `logReference(referencePointer, offset)`. */
    method LogReference(referencePointer: int, offset: int, stack: string)
      requires wasm.Some?
      modifies this`logTarget
      ensures logTarget == old(logTarget).(logs := old(logTarget.logs)
                + [LogValue("Reference Type", StackTrace.LogStackTrace(stack), Number(Finite(referencePointer as real)),
                            Some(referencePointer), Some(offset),
                            Some(Slice(wasm.value.memory, referencePointer, referencePointer + offset)))])
    {
      var bytes := Slice(wasm.value.memory, referencePointer, referencePointer + offset);
      var value := LogValue("Reference Type", StackTrace.LogStackTrace(stack), Number(Finite(referencePointer as real)),
                            Some(referencePointer), Some(offset), Some(bytes));
      logTarget := logTarget.(logs := logTarget.logs + [value]);
    }

    /** `logString(pointer)`. */
    method LogString(pointer: int, stack: string)
      requires wasm.Some?
      modifies this`logTarget
      ensures logTarget == old(logTarget).(logs := old(logTarget.logs)
                + [LogValue(wasm.value.getString(pointer), StackTrace.LogStackTrace(stack), Number(Finite(pointer as real)),
                            Some(pointer), Some(0), None)])
    {
      var value := LogValue(wasm.value.getString(pointer), StackTrace.LogStackTrace(stack), Number(Finite(pointer as real)),
                            Some(pointer), Some(0), None);
      logTarget := logTarget.(logs := logTarget.logs + [value]);
    }

    /** `logValue(numericValue)`. */
    method LogNumber(numericValue: F64, show: F64 -> string, stack: string)
      modifies this`logTarget
      ensures logTarget == old(logTarget).(logs := old(logTarget.logs)
                + [LogValue("Value " + show(numericValue), StackTrace.LogStackTrace(stack), Number(numericValue),
                            None, None, None)])
    {
      var value := LogValue("Value " + show(numericValue), StackTrace.LogStackTrace(stack), Number(numericValue),
                            None, None, None);
      logTarget := logTarget.(logs := logTarget.logs + [value]);
    }
  }

  // ---------------------------------------------------------------------------------
  // createImports
  // ---------------------------------------------------------------------------------

  /**
   * A value in an import namespace: something supplied by the caller, a primitive of
   * the context bound to it, the abort wrapper `createImports` installs, or the no-op
   * that stands in for a missing previous abort.
   */
  datatype Binding = Foreign(id: nat) | Bound(primitive: string) | AbortWrapper(previous: Binding) | NoOp

  type Namespace = map<string, Binding>
  type Imports = map<string, Namespace>

  /** The primitives bound under `__aspect`. */
  const AspectNames: set<string> := {
    "clearExpected", "debug", "tryCall", "logNull", "logReference", "logString", "logValue",
    "reportActualNull", "reportExpectedNull", "reportActualValue", "reportExpectedValue",
    "reportActualReference", "reportExpectedReference", "reportActualString",
    "reportExpectedString", "reportExpectedTruthy", "reportExpectedFalsy", "reportExpectedFinite"}

  function Aspect(): Namespace
  {
    map n | n in AspectNames :: Bound(n)
  }

  /** `Object.assign({}, ...objects)`: the objects' keys, left to right, a later value replacing an earlier one. */
  function Assign(objects: seq<Imports>): Imports
  {
    if objects == [] then map[] else Assign(objects[..|objects| - 1]) + objects[|objects| - 1]
  }

  /** Reference definition: the value of `key` in the last object that has it. */
  function LastWith(objects: seq<Imports>, key: string): Option<Namespace>
  {
    if objects == [] then None
    else
      var later := LastWith(objects[1..], key);
      if later.Some? then later
      else if key in objects[0] then Some(objects[0][key])
      else None
  }

  /** `createImports(...imports)`. */
  function CreateImports(imports: seq<Imports>): Imports
  {
    var result := Assign(imports + [map["__aspect" := Aspect()]]);
    var env := if "env" in result then result["env"] else map[];
    var previousAbort := if "abort" in env then env["abort"] else NoOp;
    result["env" := env["abort" := AbortWrapper(previousAbort)]]
  }

  /** The functions an abort binding ends up calling, in order. */
  function AbortCalls(b: Binding): seq<Binding>
  {
    match b
    case AbortWrapper(previous) => AbortCalls(previous) + [Bound("abort")]
    case NoOp => []
    case _ => [b]
  }

  // ---------------------------------------------------------------------------------

  /** A context built from parameters that supply every field takes all of them. */
  lemma ConfigureAll(s: Settings)
    ensures Configure(Some(AllOf(s))) == s
  {
  }

  /**
   * Each field takes the supplied value when one is supplied and keeps its default
   * otherwise; an empty file name, which is falsy, leaves the default, which is the
   * same empty name. With no parameters at all every field is the default.
   */
  lemma ConfigureFields(p: Params)
    ensures Configure(None) == Defaults
    ensures var s := Configure(Some(p));
      && (p.reporter.Some? ==> s.reporter == p.reporter.value)
      && (p.reporter.None? ==> s.reporter == Defaults.reporter)
      && (p.stdout.Some? ==> s.stdout == p.stdout.value)
      && (p.stdout.None? ==> s.stdout == Defaults.stdout)
      && (p.stderr.Some? ==> s.stderr == p.stderr.value)
      && (p.stderr.None? ==> s.stderr == Defaults.stderr)
      && (p.performanceConfiguration.Some? ==> s.performanceConfiguration == p.performanceConfiguration.value)
      && (p.performanceConfiguration.None? ==> s.performanceConfiguration == Defaults.performanceConfiguration)
      && (p.testRegex.Some? ==> s.testRegex == p.testRegex.value)
      && (p.testRegex.None? ==> s.testRegex == Defaults.testRegex)
      && (p.groupRegex.Some? ==> s.groupRegex == p.groupRegex.value)
      && (p.groupRegex.None? ==> s.groupRegex == Defaults.groupRegex)
      && (p.fileName.Some? ==> s.fileName == p.fileName.value)
      && (p.fileName.None? ==> s.fileName == Defaults.fileName)
  {
  }

  lemma {:induction false} AssignSnoc(objects: seq<Imports>, last: Imports, key: string)
    ensures LastWith(objects + [last], key)
         == if key in last then Some(last[key]) else LastWith(objects, key)
  {
    if objects != [] {
      assert (objects + [last])[1..] == objects[1..] + [last];
      AssignSnoc(objects[1..], last, key);
    } else {
      assert ([last])[1..] == [];
    }
  }

  /** `Object.assign` agrees with the reference: later arguments win. */
  lemma {:induction false} AssignLaterWins(objects: seq<Imports>, key: string)
    ensures key in Assign(objects) <==> LastWith(objects, key).Some?
    ensures key in Assign(objects) ==> Assign(objects)[key] == LastWith(objects, key).value
  {
    if objects != [] {
      var init := objects[..|objects| - 1];
      var last := objects[|objects| - 1];
      AssignLaterWins(init, key);
      assert objects == init + [last];
      AssignSnoc(init, last, key);
    }
  }

  /**
   * In the merged imports `__aspect` is always the context's own bindings, whatever
   * the arguments hold; every other key except `env` comes from the last argument
   * that has it.
   */
  lemma CreateImportsMerge(imports: seq<Imports>, key: string)
    ensures CreateImports(imports)["__aspect"] == Aspect()
    ensures key != "__aspect" && key != "env" ==>
      (key in CreateImports(imports) <==> LastWith(imports, key).Some?)
      && (key in CreateImports(imports) ==> CreateImports(imports)[key] == LastWith(imports, key).value)
  {
    var aspect: Imports := map["__aspect" := Aspect()];
    AssignLaterWins(imports + [aspect], key);
    AssignLaterWins(imports + [aspect], "__aspect");
    AssignSnoc(imports, aspect, key);
    AssignSnoc(imports, aspect, "__aspect");
  }

  /**
   * The merged `env` keeps the supplied entries and its `abort` runs the supplied
   * abort (if any) first and the context's own abort last.
   */
  lemma CreateImportsEnv(imports: seq<Imports>)
    ensures var env := CreateImports(imports)["env"];
      var supplied := LastWith(imports, "env");
      var previous := if supplied.Some? && "abort" in supplied.value then supplied.value["abort"] else NoOp;
      && env["abort"] == AbortWrapper(previous)
      && AbortCalls(env["abort"]) == AbortCalls(previous) + [Bound("abort")]
      && (forall k | k != "abort" :: k in env <==> supplied.Some? && k in supplied.value)
      && (forall k | k != "abort" && k in env :: env[k] == supplied.value[k])
  {
    var aspect: Imports := map["__aspect" := Aspect()];
    AssignLaterWins(imports + [aspect], "env");
    AssignSnoc(imports, aspect, "env");
  }
}
