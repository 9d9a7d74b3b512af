/**
 * The values the harness passes between the decoder, the interpreter and the JavaScript host,
 * and the host engine itself. Everything the harness only calls into (the module decoder, the
 * function-body verifier, the interpreter's execution loop, the compiler, instantiation and
 * JavaScript function invocation) is an opaque total function in `Engine`.
 */
module WasmHost {
  import opened Wrappers
  import opened MachineInts

  /** Which grammar the module bytes follow and which entry name the harness calls. */
  datatype ModuleOrigin = WasmOrigin | AsmJsOrigin

  /** A function of a decoded module: its signature and its code range within the module bytes. */
  datatype WasmFunction = WasmFunction(sigIndex: nat, codeStartOffset: nat, codeEndOffset: nat)

  datatype ImportEntry = ImportEntry(moduleName: string, functionName: string)
  datatype ExportEntry = ExportEntry(name: string, funcIndex: nat)

  /** A decoded module; immutable once the decoder has produced it. */
  datatype WasmModule = WasmModule(
    origin: ModuleOrigin,
    moduleBytes: seq<byte>,
    minMemPages: uint32,
    functions: seq<WasmFunction>,
    importTable: seq<ImportEntry>,
    exportTable: seq<ExportEntry>)

  /** What the decoder hands back: a module, or the failure with the decoder's own text. */
  datatype ModuleResult = ModuleOk(decoded: WasmModule) | ModuleFailed(errorMsg: string)

  /**
   * The interpreter's view of one instantiation. `memStart` and `globalsStart` are addresses;
   * `None` is a null pointer, that is, no storage provisioned.
   */
  datatype WasmModuleInstance = WasmModuleInstance(
    wasmModule: WasmModule,
    memSize: uint32,
    memStart: Option<nat>,
    globalsStart: Option<nat>)

  datatype ModuleEnv = ModuleEnv(wasmModule: WasmModule, instance: WasmModuleInstance, origin: ModuleOrigin)

  /** What the function-body verifier is given: the environment, the signature and the code range. */
  datatype FunctionBody = FunctionBody(
    env: ModuleEnv,
    sigIndex: nat,
    moduleBytes: seq<byte>,
    startOffset: nat,
    endOffset: nat)

  /** An argument value for a WebAssembly function. */
  datatype WasmVal = I32(i32: int32) | I64(i64: int) | F32(f32: real) | F64(f64: real)

  datatype Frame = Frame(func: WasmFunction, args: seq<WasmVal>)

  /** The states an interpreter thread reports. */
  datatype ThreadState = Stopped | Running | Paused | Finished | Trapped

  /** What one `Run` of the interpreter ends with: the thread's state and, if it finished, its i32 result. */
  datatype RunOutcome = RunOutcome(state: ThreadState, returnValue: int32)

  /** JavaScript values as far as the harness distinguishes them. */
  datatype JsValue =
    | Undefined
    | Smi(smi: int32)
    | HeapNumber(number: Int32Double)
    | Function(id: nat)
    | Object(own: map<string, JsValue>)

  /** A JavaScript object, by its own properties. */
  type JsObject = map<string, JsValue>

  /** An opaque handle to the compiler's output. */
  datatype CompiledModule = CompiledModule(handle: nat)

  /** The compiler's output, if any, and the error it reported to the thrower, if any. */
  datatype CompileOutcome = CompileOutcome(code: Option<CompiledModule>, error: Option<string>)

  /** The collaborators the harness calls but does not define. */
  datatype Engine = Engine(
    decode: (seq<byte>, ModuleOrigin) -> ModuleResult,
    verify: FunctionBody -> bool,
    run: (WasmModuleInstance, seq<Frame>) -> RunOutcome,
    compile: WasmModule -> CompileOutcome,
    instantiate: CompiledModule -> JsObject,
    call: (JsValue, seq<JsValue>) -> Option<JsValue>)

  /**
   * One interpreter thread over a fixed instance. `Reset` empties it, `PushFrame` sets up a
   * call, and `Run` lets the engine's interpreter loop take it to the state it reports.
   */
  class InterpreterThread {
    const instance: WasmModuleInstance
    var state: ThreadState
    var frames: seq<Frame>
    var returnValue: int32

    constructor (instance: WasmModuleInstance)
      ensures this.instance == instance && state == Stopped && frames == []
    {
      this.instance := instance;
      state := Stopped;
      frames := [];
      returnValue := 0;
    }

    method Reset()
      modifies this
      ensures state == Stopped && frames == [] && returnValue == old(returnValue)
    {
      state := Stopped;
      frames := [];
    }

    method PushFrame(func: WasmFunction, args: seq<WasmVal>)
      modifies this
      ensures frames == old(frames) + [Frame(func, args)]
      ensures state == old(state) && returnValue == old(returnValue)
    {
      frames := frames + [Frame(func, args)];
    }

    method Run(engine: Engine) returns (s: ThreadState)
      modifies this
      ensures frames == old(frames)
      ensures s == state == engine.run(instance, frames).state
      ensures returnValue == engine.run(instance, frames).returnValue
    {
      var outcome := engine.run(instance, frames);
      state, returnValue := outcome.state, outcome.returnValue;
      s := state;
    }

    /** The value a finished run returned. */
    function GetReturnValue(): (v: int32)
      reads this
      requires state == Finished
      ensures v == returnValue
    {
      returnValue
    }
  }
}
