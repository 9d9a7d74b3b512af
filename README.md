# WebAssembly module runner for tests, in Dafny

This project models the test harness in `test/cctest/wasm/wasm-module-runner.cc`. The harness
decides which `int32_t` a WebAssembly test gets back from a module:

- **Decode adapter** (`DecodeWasmModuleForTesting`). It turns the decoder's result and the
  current state of the `ErrorThrower` into a module or null.
- **Support checks.** These run in `InstantiateModuleForTesting` and again in
  `InterpretWasmModule`. A module must have no imports and at least one export. The two checks
  are independent, so both may report.
- **Compiled path** (`CompileAndRunWasmModule`, `CallWasmFunctionForTesting`). It compiles and
  instantiates the module. It then looks up `"caller"` (asm.js) or `"main"` (WebAssembly) as an
  export, calls it and converts a Smi or HeapNumber result to `int32`.
- **Interpreted path** (`InterpretWasmModule`). It builds a minimal instance and verifies one
  function. It then resets an interpreter thread, pushes a frame and runs it. The thread's end
  state gives the result: FINISHED gives the returned value and TRAPPED gives `0xdeadbeef`. Any
  other state gives `-1` and a report.
- **`GetMinModuleMemSize`**, the minimum memory size as a `uint32_t` product.

The `ErrorThrower` is a class (`ErrorThrowers.ErrorThrower`). Its fields are the error flag and
the message, and a ghost log records every report made to it. The flag and the message are
always what replaying that log on a clean thrower gives (`Replay`), so the first report fixes
the message. Each harness function is a method that changes only the thrower. It is proved
against a `...Step` function of module `ModuleRunner`. That function gives the method's result
and the reports it makes, in order, and the harness's promises are stated on it.

The host engine's collaborators are opaque total functions in the datatype `WasmHost.Engine`.
They are the module decoder, the function-body verifier, the interpreter's run loop, the
compiler, instantiation and JavaScript invocation. Integer widths are written out in
`MachineInts`.

In three places the code is looser than it looks, and the model follows the code:

- The compiled path does not check that the export it finds is a function. It casts the
  property value unchecked (line 168). An invocation that throws shows up only as a null result
  (line 176).
- The function index is not bounds-checked (line 123). The model states it as a precondition.
  The precondition holds only on the path that reaches the access: a clean thrower and a
  supported module.
- The interpreted path reads FINISHED and TRAPPED by name (lines 139-143). It treats every other
  thread state alike.

Because the Step functions are functions, running the same path twice on the same inputs gives
the same result.

## Model

| member | source | states |
|---|---|---|
| `MachineInts.Int32FromBits` | test/cctest/wasm/wasm-module-runner.cc:143 | returning the unsigned literal as `int32_t` keeps the bit pattern: the result is congruent to it modulo 2^32 and negative exactly when its top bit is set |
| `MachineInts.TruncateToInt32` | test/cctest/wasm/wasm-module-runner.cc:185 | `static_cast<int32_t>` of a double rounds toward zero: the result is within 1 of the value, on the zero side |
| `ErrorThrowers.Replay` | test/cctest/wasm/wasm-module-runner.cc:53-60 | after any sequence of reports the thrower holds an error exactly when it held one before or some report was made; the flag is never cleared |
| `ErrorThrowers.ReplayKeepsFirst` | test/cctest/wasm/wasm-module-runner.cc:53-58 | however many reports follow, the message is the context plus the first report ever made |
| `ErrorThrowers.ReplayAppend` | test/cctest/wasm/wasm-module-runner.cc:77-92 | stages that share one thrower compose: reporting `a` then `b` leaves the same state as reporting `a + b` |
| `ErrorThrowers.ErrorThrower.constructor` | test/cctest/wasm/wasm-module-runner.cc:77 | a new thrower holds no error and has no reports |
| `ErrorThrowers.ErrorThrower.Error` | test/cctest/wasm/wasm-module-runner.cc:54 | a report is logged, the flag is set, and the invariant holds |
| `ErrorThrowers.ErrorThrower.Pending` | test/cctest/wasm/wasm-module-runner.cc:77 | the error a thrower holds at the end exists exactly when something was reported, and it is the first report under the thrower's context |
| `ModuleRunner.GetMinModuleMemSize` | test/cctest/wasm/wasm-module-runner.cc:22-24 | the uint32 product of page size and minimum pages: exact below 65536 pages, wrapping modulo 2^32 (always a whole number of pages) from there on |
| `ModuleRunner.DecodeStep` | test/cctest/wasm/wasm-module-runner.cc:36-45 | a module comes out exactly when decoding succeeded and the thrower held no error, and it is the decoded module; there is a report exactly when decoding failed, and it carries the decoder's message |
| `ModuleRunner.DecodeWasmModuleForTesting` | test/cctest/wasm/wasm-module-runner.cc:26-46 | result and new reports are those of `DecodeStep`; a non-null result leaves the thrower without an error |
| `ModuleRunner.SupportErrors` | test/cctest/wasm/wasm-module-runner.cc:53-58 | no report exactly for supported modules; the import report exactly when there are imports, the no-export report exactly when there are no exports; both, import first, when both apply |
| `ModuleRunner.CompileReports` | test/cctest/wasm/wasm-module-runner.cc:62-63 | the compiler's reports are at most one, its own error, made exactly when it has one |
| `ModuleRunner.InstantiateStep` | test/cctest/wasm/wasm-module-runner.cc:53-69 | the support reports always come first; a prior error or an unsupported module stops before compilation with a null handle; otherwise the only reports are the compiler's own, none added when no code comes out; an instance comes out exactly when the thrower was clean, the module supported and the compiler produced code, and it is that code's instantiation |
| `ModuleRunner.InstantiateModuleForTesting` | test/cctest/wasm/wasm-module-runner.cc:48-70 | result and new reports are those of `InstantiateStep` |
| `ModuleRunner.NumberValue` | test/cctest/wasm/wasm-module-runner.cc:180-188 | a result converts exactly when it is a Smi or a HeapNumber: a Smi to its value, a HeapNumber to its value truncated toward zero |
| `ModuleRunner.CallStep` | test/cctest/wasm/wasm-module-runner.cc:154-188 | a missing export gives -1 with no report; otherwise no report exactly when the invocation returned a number, whose value is the result; a null invocation and a result that is not a number each give their own report; every report comes with -1 |
| `ModuleRunner.ExportsObject` | test/cctest/wasm/wasm-module-runner.cc:154-161 | the export is looked up on the instance itself for asm.js, and on the object under its `exports` property otherwise |
| `ModuleRunner.CallWasmFunctionForTesting` | test/cctest/wasm/wasm-module-runner.cc:150-189 | result and new reports are those of `CallStep`, looking the name up on the instance for asm.js and on its `exports` object otherwise |
| `ModuleRunner.CompileAndRunStep` | test/cctest/wasm/wasm-module-runner.cc:78-92 | decoding uses the dialect the flag selects; a decode failure gives -1 with the decoder's report only; an unsupported module gives -1 with just the support reports; no code gives -1; past the checks the reports are the compiler's followed by the entry call's; otherwise the result is calling `"caller"` (asm.js) or `"main"` with no arguments on the instance |
| `ModuleRunner.CompileAndRunWasmModule` | test/cctest/wasm/wasm-module-runner.cc:72-93 | returns `CompileAndRunStep`'s result, on a fresh thrower, and the error left in that thrower exactly when a report was made (the first one) |
| `ModuleRunner.MinimalInstance` | test/cctest/wasm/wasm-module-runner.cc:112-116 | the interpreted path's instance is over the module, with the minimum memory size and null memory and globals pointers |
| `ModuleRunner.BodyOf` | test/cctest/wasm/wasm-module-runner.cc:118-127 | the verifier gets an environment with the module, the instance and the module's origin, the function's signature, and its code range as offsets into the module bytes |
| `ModuleRunner.InterpretStep` | test/cctest/wasm/wasm-module-runner.cc:103-147 | prior error or unsupported module: -1 with only the support reports, nothing verified or run; a function that fails verification: -1 with "did not verify"; FINISHED: the returned value, TRAPPED: the trap sentinel, both without report; any other state: -1 with the step-bound report; hence every -1 that is not a finished run's value leaves an error in the thrower; the verifier and the interpreter see an instance with minimum memory size and null memory and globals |
| `ModuleRunner.InterpretWasmModule` | test/cctest/wasm/wasm-module-runner.cc:95-148 | result and new reports are those of `InterpretStep`, running a thread reset and given one frame for the function and arguments |
| `ModuleRunner.PathsAgree` | test/cctest/wasm/wasm-module-runner.cc:78-147 | a corollary of the Step contracts, not an end-to-end round trip: given an engine whose entry export returns the Smi `v` and whose interpreted function finishes with `v`, both paths return `v`, the interpreted one without reports |
| `ModuleRunner.TrapSentinelIsNotFatal` | test/cctest/wasm/wasm-module-runner.cc:143-146 | the trap sentinel is 0xdeadbeef - 2^32 and differs from the failure result -1 |
| `WasmHost.InterpreterThread.constructor` | test/cctest/wasm/wasm-module-runner.cc:134-136 | a thread over the instance starts stopped with no frames |
| `WasmHost.InterpreterThread.Reset` | test/cctest/wasm/wasm-module-runner.cc:137 | the thread is stopped and has no frames |
| `WasmHost.InterpreterThread.PushFrame` | test/cctest/wasm/wasm-module-runner.cc:138 | one frame for the function and arguments is added on top; nothing else changes |
| `WasmHost.InterpreterThread.GetReturnValue` | test/cctest/wasm/wasm-module-runner.cc:140-141 | a finished thread gives back the value its run returned |
| `WasmHost.InterpreterThread.Run` | test/cctest/wasm/wasm-module-runner.cc:139-140 | the state and return value become what the interpreter reports for this instance and these frames, and the state is returned |

## Left out

- The module decoder, the function-body verifier, the interpreter's instruction semantics and step budget, `CompileFunctions`, `WasmModule::Instantiate` and `Execution::Call` are not modelled. They are defined outside this file, so each is an opaque function in `Engine`.
- Isolates, zones, handle scopes, the native context and string internalisation are host plumbing with no effect on the result.
- `ErrorThrower` is defined in wasm-result.h and wasm-result.cc, which are not part of this model. The model takes `ErrorThrower::Error` to set the flag for good and to keep the message of the first report: the context, then `": "`, then the report. It does not model the format-string buffer, and it does not model how the pending error reaches JavaScript.
- `CompileAndRunWasmModule` returns the thrower's pending error beside the result. This stands in for the thrower being released when the call ends.
- `InstantiateModuleForTesting` assumes `WasmModule::Instantiate` succeeds; line 69 aborts otherwise.
- `InstantiateModuleForTesting` assumes that `CompileFunctions` reports at most one error to the thrower. The compiler is not part of this model.
- `TruncateToInt32` is defined only for doubles whose truncation fits in int32. Converting any other double, NaN or an infinity is undefined behaviour in C++. HeapNumber payloads are restricted to this range.
- `InterpretWasmModule` receives the interpreter's return value as an i32. `WasmVal` and its checked `to<int32_t>` conversion live in wasm-interpreter.h, which is not part of this model.
- Each interpreter is built over one instance and uses one thread, which stands for `GetThread(0)`. Multi-thread interpreters are not modelled.
- `CallWasmFunctionForTesting` reads `exports` as an own data property holding an object, and requires it to exist on non-asm.js instances. `GetProperty` also walks the prototype chain. A missing or non-object value would be cast unchecked (line 159), which the source does not define.
- `CompileAndRunWasmModule` requires, unless the module is asm.js, that the instance it creates for these bytes has an `exports` object, for the same reason.
- `GetMinModuleMemSize` uses the page size 64 KiB. The constant lives in wasm-module.h, which is not part of this model.
- The end-to-end properties that need a real encoder, decoder or interpreter are not modelled. Examples are a malformed buffer always failing to decode, and a trapping or looping function ending in a given state.
