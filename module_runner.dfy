/**
 * The WebAssembly test harness: decode a module, refuse what the harness does not support,
 * then either compile, instantiate and call its entry export, or interpret one of its
 * functions, and reduce the outcome to one int32.
 *
 * Each stage is a method over the shared ErrorThrower, as in the harness, and is proved
 * against a `...Step` function that gives the stage's result and the reports it makes to the
 * thrower, in order. What the harness promises is stated on those functions.
 */
module ModuleRunner {
  import opened Wrappers
  import opened MachineInts
  import opened WasmHost
  import opened ErrorThrowers

  /** The WebAssembly page size, 64 KiB. */
  const PageSize: int := 0x10000

  /** The harness's "no result" value. */
  const Fatal: int32 := -1

  /** What the interpreted path returns for a trap: the unsigned literal 0xdeadbeef as int32_t. */
  const TrapSentinel: int32 := Int32FromBits(0xdead_beef)

  const ImportsMsg: string := "Not supported: module has imports."
  const NoExportsMsg: string := "Not supported: module has no exports."
  const VerifyFailedMsg: string := "Function did not verify"
  const StepBoundMsg: string := "Interpreter did not finish execution within its step bound"
  const NullInvocationMsg: string := "WASM.compileRun() failed: Invocation was null"
  const NotNumberMsg: string := "WASM.compileRun() failed: Return value should be number"

  function DecodeFailedMsg(decoderMsg: string): string
  {
    "WASM.compileRun() failed: " + decoderMsg
  }

  /** What a stage yields: its result and the reports it makes to the thrower, in order. */
  datatype Step<T> = Step(value: T, errors: seq<string>)

  /* ---------------------------------------------------------------- memory size */

  /**
   * The module's minimum memory in bytes, computed as a uint32_t product: it is the exact
   * product below 2^16 pages, and wraps around (65536 pages give 0) from there on.
   */
  function GetMinModuleMemSize(m: WasmModule): (size: uint32)
    ensures size as int == PageSize * (m.minMemPages as int % 0x10000)
    ensures m.minMemPages < 0x10000 ==> size as int == PageSize * m.minMemPages as int
  {
    ((PageSize * m.minMemPages as int) % TwoTo32) as uint32
  }

  /* ---------------------------------------------------------------- decoding */

  /**
   * The decode adapter: a decoder failure is reported and gives no module; a decoded module is
   * also dropped when the thrower already holds an error.
   */
  function DecodeStep(result: ModuleResult, hadError: bool): (s: Step<Option<WasmModule>>)
    ensures s.value.Some? <==> result.ModuleOk? && !hadError
    ensures s.value.Some? ==> s.value.value == result.decoded
    ensures s.errors != [] <==> result.ModuleFailed?
    ensures result.ModuleFailed? ==> s.errors == [DecodeFailedMsg(result.errorMsg)]
  {
    if result.ModuleFailed? then Step(None, [DecodeFailedMsg(result.errorMsg)])
    else if hadError then Step(None, [])
    else Step(Some(result.decoded), [])
  }

  method DecodeWasmModuleForTesting(thrower: ErrorThrower, engine: Engine, moduleBytes: seq<byte>, origin: ModuleOrigin)
    returns (m: Option<WasmModule>)
    requires thrower.Valid()
    modifies thrower
    ensures thrower.Valid()
    ensures var s := DecodeStep(engine.decode(moduleBytes, origin), old(thrower.error));
      m == s.value && thrower.reported == old(thrower.reported) + s.errors
    ensures m.Some? ==> !thrower.error
  {
    var result := engine.decode(moduleBytes, origin);
    if result.ModuleFailed? {
      thrower.Error(DecodeFailedMsg(result.errorMsg));
      return None;
    }
    if thrower.error {
      return None;
    }
    return Some(result.decoded);
  }

  /* ---------------------------------------------------------------- supported modules */

  /** The harness runs only modules without imports and with at least one export. */
  predicate Supported(m: WasmModule)
  {
    |m.importTable| == 0 && |m.exportTable| > 0
  }

  /**
   * The reports of the two support checks. They are independent: a module that has imports
   * and no exports gets both reports, the import one first.
   */
  function SupportErrors(m: WasmModule): (errors: seq<string>)
    ensures errors == [] <==> Supported(m)
    ensures ImportsMsg in errors <==> |m.importTable| > 0
    ensures NoExportsMsg in errors <==> |m.exportTable| == 0
    ensures |errors| <= 2
    ensures |errors| == 2 ==> errors == [ImportsMsg, NoExportsMsg]
  {
    (if |m.importTable| > 0 then [ImportsMsg] else [])
    + (if |m.exportTable| == 0 then [NoExportsMsg] else [])
  }

  /* ---------------------------------------------------------------- compiled path */

  /** The reports the compiler makes to the thrower: its own error, if any. */
  function CompileReports(compiled: CompileOutcome): (reports: seq<string>)
    ensures |reports| <= 1
    ensures reports != [] <==> compiled.error.Some?
    ensures compiled.error.Some? ==> reports[0] == compiled.error.value
  {
    if compiled.error.Some? then [compiled.error.value] else []
  }

  /**
   * Instantiation for the compiled path: after the support checks, an error in the thrower
   * stops everything before compilation; otherwise the module is compiled and, if the compiler
   * produced code, instantiated.
   */
  function InstantiateStep(engine: Engine, m: WasmModule, hadError: bool): (s: Step<Option<JsObject>>)
    ensures SupportErrors(m) <= s.errors
    ensures hadError || !Supported(m) ==> s == Step(None, SupportErrors(m))
    ensures s.value.Some? <==> !hadError && Supported(m) && engine.compile(m).code.Some?
    ensures s.value.Some? ==> s.value.value == engine.instantiate(engine.compile(m).code.value)
    ensures !hadError && Supported(m) ==> s.errors == CompileReports(engine.compile(m))
  {
    var checks := SupportErrors(m);
    if hadError || checks != [] then Step(None, checks)
    else
      var compiled := engine.compile(m);
      var reports := CompileReports(compiled);
      match compiled.code
      case None => Step(None, checks + reports)
      case Some(code) => Step(Some(engine.instantiate(code)), checks + reports)
  }

  method InstantiateModuleForTesting(thrower: ErrorThrower, engine: Engine, m: WasmModule)
    returns (instance: Option<JsObject>)
    requires thrower.Valid()
    modifies thrower
    ensures thrower.Valid()
    ensures var s := InstantiateStep(engine, m, old(thrower.error));
      instance == s.value && thrower.reported == old(thrower.reported) + s.errors
  {
    if |m.importTable| > 0 {
      thrower.Error(ImportsMsg);
    }
    if |m.exportTable| == 0 {
      thrower.Error(NoExportsMsg);
    }
    if thrower.error {
      return None;
    }
    var compiled := engine.compile(m);
    if compiled.error.Some? {
      thrower.Error(compiled.error.value);
    }
    if compiled.code.None? {
      return None;
    }
    return Some(engine.instantiate(compiled.code.value));
  }

  /** A non-asm.js instance keeps its exports in an object under its "exports" property. */
  predicate HasExportsObject(instance: JsObject)
  {
    "exports" in instance && instance["exports"].Object?
  }

  /** The object whose own properties are the exports: the instance itself for asm.js. */
  function ExportsObject(instance: JsObject, asmJs: bool): (exports: JsObject)
    requires asmJs || HasExportsObject(instance)
    ensures asmJs ==> exports == instance
    ensures !asmJs ==> Object(exports) == instance["exports"]
  {
    if asmJs then instance else instance["exports"].own
  }

  /** The int32 a JavaScript result stands for: a Smi's value, a HeapNumber truncated toward zero. */
  function NumberValue(v: JsValue): (n: Option<int32>)
    ensures n.Some? <==> v.Smi? || v.HeapNumber?
    ensures v.Smi? ==> n == Some(v.smi)
    ensures v.HeapNumber? && v.number >= 0.0 ==> n.Some? && n.value as real <= v.number < n.value as real + 1.0
    ensures v.HeapNumber? && v.number < 0.0 ==> n.Some? && n.value as real - 1.0 < v.number <= n.value as real
  {
    match v
    case Smi(value) => Some(value)
    case HeapNumber(number) => Some(TruncateToInt32(number))
    case _ => None
  }

  /**
   * Calling an export by name: a missing export gives Fatal with no report; a null invocation
   * result or a result that is not a number gives Fatal with one report; a number gives its
   * int32 value.
   */
  function CallStep(engine: Engine, instance: JsObject, name: string, args: seq<JsValue>, asmJs: bool): (s: Step<int32>)
    requires asmJs || HasExportsObject(instance)
    ensures name !in ExportsObject(instance, asmJs) ==> s == Step(Fatal, [])
    ensures |s.errors| <= 1
    ensures s.errors != [] ==> s.value == Fatal
    ensures name in ExportsObject(instance, asmJs) ==>
      var result := engine.call(ExportsObject(instance, asmJs)[name], args);
      && (s.errors == [] <==> result.Some? && NumberValue(result.value).Some?)
      && (s.errors == [] ==> s.value == NumberValue(result.value).value)
      && (result.None? ==> s.errors == [NullInvocationMsg])
      && (result.Some? && NumberValue(result.value).None? ==> s.errors == [NotNumberMsg])
  {
    var exports := ExportsObject(instance, asmJs);
    if name !in exports then Step(Fatal, [])
    else
      match engine.call(exports[name], args)
      case None => Step(Fatal, [NullInvocationMsg])
      case Some(result) =>
        match NumberValue(result)
        case Some(n) => Step(n, [])
        case None => Step(Fatal, [NotNumberMsg])
  }

  method CallWasmFunctionForTesting(thrower: ErrorThrower, engine: Engine, instance: JsObject, name: string,
                                    args: seq<JsValue>, asmJs: bool)
    returns (r: int32)
    requires thrower.Valid()
    requires asmJs || HasExportsObject(instance)
    modifies thrower
    ensures thrower.Valid()
    ensures var s := CallStep(engine, instance, name, args, asmJs);
      r == s.value && thrower.reported == old(thrower.reported) + s.errors
  {
    var exportsObject: JsObject;
    if asmJs {
      exportsObject := instance;
    } else {
      exportsObject := instance["exports"].own;
    }
    if name !in exportsObject {
      return Fatal;
    }
    var mainExport := exportsObject[name];
    var retval := engine.call(mainExport, args);
    if retval.None? {
      thrower.Error(NullInvocationMsg);
      return Fatal;
    }
    var result := retval.value;
    if result.Smi? {
      return result.smi;
    }
    if result.HeapNumber? {
      return TruncateToInt32(result.number);
    }
    thrower.Error(NotNumberMsg);
    return Fatal;
  }

  function OriginFor(asmJs: bool): ModuleOrigin
  {
    if asmJs then AsmJsOrigin else WasmOrigin
  }

  /** The export the compiled path calls: "caller" for asm.js, "main" for WebAssembly. */
  function EntryName(asmJs: bool): string
  {
    if asmJs then "caller" else "main"
  }

  /**
   * The instance the compiled path would create for these bytes, if it gets that far, keeps its
   * exports under "exports".
   */
  predicate EntryInstanceHasExports(engine: Engine, moduleBytes: seq<byte>, asmJs: bool)
  {
    match engine.decode(moduleBytes, OriginFor(asmJs))
    case ModuleFailed(_) => true
    case ModuleOk(m) =>
      Supported(m) && engine.compile(m).code.Some? ==>
        HasExportsObject(engine.instantiate(engine.compile(m).code.value))
  }

  /** The entry point of the compiled path, starting from a thrower with no error. */
  function CompileAndRunStep(engine: Engine, moduleBytes: seq<byte>, asmJs: bool): (s: Step<int32>)
    requires asmJs || EntryInstanceHasExports(engine, moduleBytes, asmJs)
    ensures engine.decode(moduleBytes, OriginFor(asmJs)).ModuleFailed? ==>
      s == Step(Fatal, [DecodeFailedMsg(engine.decode(moduleBytes, OriginFor(asmJs)).errorMsg)])
    ensures engine.decode(moduleBytes, OriginFor(asmJs)).ModuleOk? ==>
      var m := engine.decode(moduleBytes, OriginFor(asmJs)).decoded;
      && (!Supported(m) ==> s == Step(Fatal, SupportErrors(m)))
      && (Supported(m) && engine.compile(m).code.None? ==> s.value == Fatal)
      && (Supported(m) && engine.compile(m).code.Some? ==>
            s.value == CallStep(engine, engine.instantiate(engine.compile(m).code.value), EntryName(asmJs), [], asmJs).value)
      && (Supported(m) ==>
            s.errors == CompileReports(engine.compile(m)) +
              if engine.compile(m).code.Some?
              then CallStep(engine, engine.instantiate(engine.compile(m).code.value), EntryName(asmJs), [], asmJs).errors
              else [])
  {
    var decoded := DecodeStep(engine.decode(moduleBytes, OriginFor(asmJs)), false);
    match decoded.value
    case None => Step(Fatal, decoded.errors)
    case Some(m) =>
      var instantiated := InstantiateStep(engine, m, decoded.errors != []);
      match instantiated.value
      case None => Step(Fatal, decoded.errors + instantiated.errors)
      case Some(instance) =>
        var called := CallStep(engine, instance, EntryName(asmJs), [], asmJs);
        Step(called.value, decoded.errors + instantiated.errors + called.errors)
  }

  /**
   * Decodes the bytes in the dialect `asmJs` selects, instantiates the module and calls its
   * entry export with no arguments. Also returns the error the harness's own thrower holds at
   * the end, if any.
   */
  method CompileAndRunWasmModule(engine: Engine, moduleBytes: seq<byte>, asmJs: bool)
    returns (r: int32, pending: Option<string>)
    requires asmJs || EntryInstanceHasExports(engine, moduleBytes, asmJs)
    ensures var s := CompileAndRunStep(engine, moduleBytes, asmJs);
      && r == s.value
      && (pending.Some? <==> s.errors != [])
      && (pending.Some? ==> pending.value == "CompileAndRunWasmModule: " + s.errors[0])
  {
    var thrower := new ErrorThrower("CompileAndRunWasmModule");
    ghost var spec := CompileAndRunStep(engine, moduleBytes, asmJs);
    ghost var decoded := DecodeStep(engine.decode(moduleBytes, OriginFor(asmJs)), false);
    var m := DecodeWasmModuleForTesting(thrower, engine, moduleBytes, OriginFor(asmJs));
    assert thrower.reported == decoded.errors;
    if m.None? {
      assert spec == Step(Fatal, decoded.errors);
      return Fatal, thrower.Pending();
    }
    ghost var instantiated := InstantiateStep(engine, m.value, decoded.errors != []);
    var instance := InstantiateModuleForTesting(thrower, engine, m.value);
    assert thrower.reported == decoded.errors + instantiated.errors;
    if instance.None? {
      assert spec == Step(Fatal, decoded.errors + instantiated.errors);
      return Fatal, thrower.Pending();
    }
    assert asmJs || HasExportsObject(instance.value) by {
      if !asmJs {
        assert instance.value == engine.instantiate(engine.compile(m.value).code.value);
      }
    }
    ghost var called := CallStep(engine, instance.value, EntryName(asmJs), [], asmJs);
    r := CallWasmFunctionForTesting(thrower, engine, instance.value, EntryName(asmJs), [], asmJs);
    assert thrower.reported == decoded.errors + instantiated.errors + called.errors;
    assert spec == Step(called.value, decoded.errors + instantiated.errors + called.errors);
    pending := thrower.Pending();
  }

  /* ---------------------------------------------------------------- interpreted path */

  /** The instance the interpreted path runs on: minimum memory size, no memory, no globals. */
  function MinimalInstance(m: WasmModule): (instance: WasmModuleInstance)
    ensures instance.wasmModule == m
    ensures instance.memSize == GetMinModuleMemSize(m)
    ensures instance.memStart.None? && instance.globalsStart.None?
  {
    WasmModuleInstance(m, GetMinModuleMemSize(m), None, None)
  }

  /** What the verifier is given for function `f` of the instance's module. */
  function BodyOf(instance: WasmModuleInstance, f: WasmFunction): (body: FunctionBody)
    ensures body.env == ModuleEnv(instance.wasmModule, instance, instance.wasmModule.origin)
    ensures body.sigIndex == f.sigIndex && body.moduleBytes == instance.wasmModule.moduleBytes
    ensures body.startOffset == f.codeStartOffset && body.endOffset == f.codeEndOffset
  {
    var m := instance.wasmModule;
    FunctionBody(ModuleEnv(m, instance, m.origin), f.sigIndex, m.moduleBytes, f.codeStartOffset, f.codeEndOffset)
  }

  /** Whether function `functionIndex` passes the verifier. */
  function VerifiesAt(engine: Engine, m: WasmModule, functionIndex: int): bool
    requires 0 <= functionIndex < |m.functions|
  {
    engine.verify(BodyOf(MinimalInstance(m), m.functions[functionIndex]))
  }

  /** What running function `functionIndex` on a freshly reset thread ends with. */
  function RunAt(engine: Engine, m: WasmModule, functionIndex: int, args: seq<WasmVal>): RunOutcome
    requires 0 <= functionIndex < |m.functions|
  {
    engine.run(MinimalInstance(m), [Frame(m.functions[functionIndex], args)])
  }

  /**
   * The interpreted path. Unless the thrower is clean and the module supported, nothing is
   * verified or run and the result is Fatal. Otherwise a function that fails verification gives
   * Fatal with a report; a run that finishes gives its value, one that traps the trap sentinel,
   * neither with a report; any other end gives Fatal with the step-bound report. So a Fatal
   * that is not a finished run's value always leaves the thrower holding an error.
   */
  function InterpretStep(engine: Engine, m: WasmModule, functionIndex: int, args: seq<WasmVal>, hadError: bool)
    : (s: Step<int32>)
    requires !hadError && Supported(m) ==> 0 <= functionIndex < |m.functions|
    ensures hadError || !Supported(m) ==> s == Step(Fatal, SupportErrors(m))
    ensures |s.errors| <= 2
    ensures s.errors != [] ==> s.value == Fatal
    ensures !hadError && Supported(m) ==>
      && (!VerifiesAt(engine, m, functionIndex) ==> s == Step(Fatal, [VerifyFailedMsg]))
      && (VerifiesAt(engine, m, functionIndex) ==>
            var outcome := RunAt(engine, m, functionIndex, args);
            && (outcome.state == Finished ==> s == Step(outcome.returnValue, []))
            && (outcome.state == Trapped ==> s == Step(TrapSentinel, []))
            && (outcome.state != Finished && outcome.state != Trapped ==> s == Step(Fatal, [StepBoundMsg])))
    ensures s.value == Fatal ==>
      hadError || s.errors != [] ||
      (VerifiesAt(engine, m, functionIndex) && RunAt(engine, m, functionIndex, args) == RunOutcome(Finished, Fatal))
  {
    var checks := SupportErrors(m);
    if hadError || checks != [] then Step(Fatal, checks)
    else if !VerifiesAt(engine, m, functionIndex) then Step(Fatal, [VerifyFailedMsg])
    else
      var outcome := RunAt(engine, m, functionIndex, args);
      if outcome.state == Finished then Step(outcome.returnValue, [])
      else if outcome.state == Trapped then Step(TrapSentinel, [])
      else Step(Fatal, [StepBoundMsg])
  }

  method InterpretWasmModule(thrower: ErrorThrower, engine: Engine, m: WasmModule, functionIndex: int,
                             args: seq<WasmVal>)
    returns (r: int32)
    requires thrower.Valid()
    requires !thrower.error && Supported(m) ==> 0 <= functionIndex < |m.functions|
    modifies thrower
    ensures thrower.Valid()
    ensures var s := InterpretStep(engine, m, functionIndex, args, old(thrower.error));
      r == s.value && thrower.reported == old(thrower.reported) + s.errors
  {
    if |m.importTable| > 0 {
      thrower.Error(ImportsMsg);
    }
    if |m.exportTable| == 0 {
      thrower.Error(NoExportsMsg);
    }
    if thrower.error {
      return Fatal;
    }

    var instance := WasmModuleInstance(m, GetMinModuleMemSize(m), None, None);
    var env := ModuleEnv(m, instance, m.origin);
    var f := m.functions[functionIndex];
    var body := FunctionBody(env, f.sigIndex, m.moduleBytes, f.codeStartOffset, f.codeEndOffset);
    assert instance == MinimalInstance(m) && body == BodyOf(instance, f);
    if !engine.verify(body) {
      thrower.Error(VerifyFailedMsg);
      return Fatal;
    }

    var thread := new InterpreterThread(instance);
    thread.Reset();
    thread.PushFrame(f, args);
    var state := thread.Run(engine);
    assert thread.frames == [Frame(f, args)];
    assert thread.returnValue == RunAt(engine, m, functionIndex, args).returnValue;
    if state == Finished {
      r := thread.GetReturnValue();
    } else if thread.state == Trapped {
      r := TrapSentinel;
    } else {
      thrower.Error(StepBoundMsg);
      r := Fatal;
    }
  }

  /**
   * The two paths agree on a supported module whose entry export, called with no arguments,
   * returns the Smi `v`, and whose function `functionIndex` verifies and finishes with `v` when
   * interpreted with no arguments.
   */
  lemma PathsAgree(engine: Engine, moduleBytes: seq<byte>, asmJs: bool, m: WasmModule, functionIndex: int, v: int32)
    requires asmJs || EntryInstanceHasExports(engine, moduleBytes, asmJs)
    requires engine.decode(moduleBytes, OriginFor(asmJs)) == ModuleOk(m) && Supported(m)
    requires engine.compile(m).code.Some?
    requires EntryName(asmJs) in ExportsObject(engine.instantiate(engine.compile(m).code.value), asmJs)
    requires engine.call(ExportsObject(engine.instantiate(engine.compile(m).code.value), asmJs)[EntryName(asmJs)], [])
             == Some(Smi(v))
    requires 0 <= functionIndex < |m.functions|
    requires VerifiesAt(engine, m, functionIndex) && RunAt(engine, m, functionIndex, []) == RunOutcome(Finished, v)
    ensures CompileAndRunStep(engine, moduleBytes, asmJs).value == v
    ensures InterpretStep(engine, m, functionIndex, [], false) == Step(v, [])
  {
  }

  /** The trap sentinel is 0xdeadbeef read as a negative int32, so it is never the failure value. */
  lemma TrapSentinelIsNotFatal()
    ensures TrapSentinel as int == 0xdead_beef - TwoTo32
    ensures TrapSentinel != Fatal
  {
  }
}
