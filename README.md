# as-pect test harness core, in Dafny

This project models the test-execution protocol of as-pect. The guest side is AssemblyScript compiled to WebAssembly. The host side is Node.js.

- **Guest contexts** (`GuestContext`). A group is a `TestContext` object. It holds four hook lists, three parallel test lists, a todo list and a pointer to its parent. `fork` creates a child whose name extends the parent's name and whose hook lists are copies of the parent's lists.
- **Registration** (`Registration`). `describe`, `it`, `test`, `throws`, `todo`, `xit`, `xtest` and the four hook registrars work on a stack of contexts and on the flat `groups` registry. A `describe` body is a script of registrar calls.
- **Guest runner** (`GuestRunner`). `__run` walks the groups in registration order. For each group it asks the host whether the group may run, calls the beforeAll hooks of the whole parent chain, and runs each accepted test between the beforeEach and afterEach hooks. It then calls the afterAll hooks and reports the end of the group. A failing hook ends its group. A failing test does not. Every host import the guest calls is an event appended to a trace. The host's answers are a `Host` value: the two name filters, and whether a callback succeeds given everything that happened before.
- **Stack traces** (`StackTrace`). The host's stack filters keep only the frames that mention `wasm-function`, ignoring case.
- **Host context** (`HostContext`). These are the primitives the guest imports under `__aspect`. They record the pending actual and expected diagnostics and append log entries. `tryCall` calls a function-table entry and turns a thrown error into the result 0 plus a filtered stack. `createImports` merges the caller's imports.
- **CLI run** (`CliRun`). This covers the compiler flags and their flattening into an argument list. It also covers the counters folded over the test modules, the final verdict, the memo caches handed to the compiler, and what each compiler output becomes.

Each stateful source entity is a class with `modifies` frames. The pure parts are functions, each with an independent reference definition or an inverse, and lemmas connect the two.

Two places in the source do not do what they evidently mean. Both are listed under "Findings". For each one, the code as written is modelled and its effect is proved on a concrete input. The rest of the model uses the corrected definition.

Hooks registered on an outer group run twice for a test in an inner group. `fork` copies the parent's hook lists, and every `run*` walk also visits the parent, so such a hook is called once from the parent level and once from the child's copy. `InheritedHookRunsTwice` proves it.

## Model

| member | source | states |
|---|---|---|
| GuestContext.TestContext.constructor | assembly/internal/test/TestContext.ts:3-16 | a new context has the empty name, no parent, eight empty lists and zero timestamps |
| GuestContext.TestContext.Fork | assembly/internal/test/TestContext.ts:19-28 | the child's name is the parent's name, a space and the child name; its parent is the forking context; its four hook lists equal the parent's; its test and todo lists are empty |
| GuestContext.ForkThenAppend | assembly/internal/test/TestContext.ts:22-25 | the copies `fork` makes are independent: appending a hook to the parent afterwards leaves the child's list as it was, so the two differ |
| Registration.Session.constructor | assembly/internal/test/describe.ts:9-22 | the stack holds only the root, the index is 0, `groups` holds only the root, and the root is empty and unnamed |
| Registration.Session.Descend | assembly/internal/test/describe.ts:27-35 | as written: the child is forked from the current context and always pushed at the end of the stack; it becomes the current context exactly when the stack was one entry longer than the old index |
| Registration.Session.DescendCorrected | assembly/internal/test/describe.ts:27-35 | corrected: the child is the current context after the descent at every depth; the entries below the new index are unchanged |
| Registration.Session.Ascend | assembly/internal/test/describe.ts:39-40 | the index drops by one and the child is appended to `groups` |
| Registration.Session.Describe | assembly/internal/test/describe.ts:26-41 | (corrected descent) the new group holds the inherited hooks followed by exactly what its body registers directly; it is appended to `groups` after every group the body declares, the total being 1 plus the nested count; the index and the enclosing stack entries are restored |
| Registration.Session.Exec | assembly/internal/test/describe.ts:37 | (corrected descent for nested groups) running a body leaves the current context holding the effect of each statement in order, keeps the index and the enclosing stack entries, and appends exactly the declared groups, all fresh |
| Registration.Session.Register | assembly/internal/test/describe.ts:45-112 | one registrar call other than `describe` changes only the current context, by exactly its statement's effect |
| Registration.Session.Todo | assembly/internal/test/describe.ts:45-48 | only the current context's todo list changes, by the description appended |
| Registration.Session.Xit | assembly/internal/test/describe.ts:52-54 | a skipped `it` is a todo; the callback is dropped |
| Registration.Session.Xtest | assembly/internal/test/describe.ts:58-60 | a skipped `test` is a todo; the callback is dropped |
| Registration.Session.It | assembly/internal/test/describe.ts:64-69 | the callback, the name and `false` are appended to the three parallel test lists of the current context, and no other list changes |
| Registration.Session.Test | assembly/internal/test/describe.ts:73-75 | the same effect as `it` |
| Registration.Session.Throws | assembly/internal/test/describe.ts:107-112 | like `it`, but the negation flag appended is `true`; the message is unused |
| Registration.Session.BeforeEach | assembly/internal/test/describe.ts:79-82 | only the current context's beforeEach list changes, by the callback appended |
| Registration.Session.BeforeAll | assembly/internal/test/describe.ts:86-89 | only the beforeAll list changes, by the callback appended |
| Registration.Session.AfterEach | assembly/internal/test/describe.ts:93-96 | only the afterEach list changes, by the callback appended |
| Registration.Session.AfterAll | assembly/internal/test/describe.ts:100-103 | only the afterAll list changes, by the callback appended |
| Registration.ApplyCollects | assembly/internal/test/describe.ts:64-112 | a body adds to its context exactly the test callbacks and, for each phase, the hooks it registers directly, in order, after those already there |
| Registration.ApplyKeepsParallel | assembly/internal/test/describe.ts:64-69 | the three test lists stay the same length whatever a body registers, growing by the number of test statements |
| Registration.StaleSiblingSlot | assembly/internal/test/describe.ts:31 | as written, in `describe("A", …); describe("B", () => it("t", 7))` the test is registered into group A and B stays empty |
| Registration.SiblingSlotCorrected | assembly/internal/test/describe.ts:26-41 | with the corrected descent the same script puts the test in group B and leaves A empty |
| GuestRunner.RunTest | assembly/internal/test/run.ts:150-158 | the test is called once and reported once, its pass flag being the result XOR the negation flag; it agrees with `TestStep` |
| GuestRunner.RunBeforeAll | assembly/internal/test/run.ts:88-100 | as written: the parent chain first, then `beforeAll.length` calls reading `beforeEach[i]`; a trap when that index is past the end; agrees with `PhaseWalk` with `corrected` false |
| GuestRunner.RunBeforeAllCorrected | assembly/internal/test/run.ts:88-100 | the corrected walk reads `beforeAll[i]`, agrees with `PhaseWalk` with `corrected` true, and never traps |
| GuestRunner.RunBeforeEach | assembly/internal/test/run.ts:102-114 | parent chain first, then this level's hooks; the first failure ends the group once and stops the walk; agrees with `PhaseWalk` |
| GuestRunner.RunAfterAll | assembly/internal/test/run.ts:116-128 | the same shape over the afterAll lists |
| GuestRunner.RunAfterEach | assembly/internal/test/run.ts:130-142 | the same shape over the afterEach lists |
| GuestRunner.RunGroup | assembly/internal/test/run.ts:44-86 | (corrected beforeAll walk) a group is reported, then skipped if the filter rejects it; otherwise beforeAll, the test loop, afterAll and the group end; agrees with `GroupRun` |
| GuestRunner.RunTests | assembly/internal/test/run.ts:62-85 | the test loop stops at the first failing beforeEach or afterEach, and otherwise runs afterAll and ends the group; agrees with `TestsFrom` |
| GuestRunner.RunTestTurn | assembly/internal/test/run.ts:63-77 | one turn reports the test; a rejected test is skipped; an accepted one runs between its beforeEach and afterEach hooks; agrees with `TestTurn` |
| GuestRunner.Run | assembly/internal/test/run.ts:32-40 | (corrected beforeAll walk) every group is reported by name in registration order, each accepted group ends exactly once, `finish` is reported once and last, and every test report follows its own test call |
| GuestRunner.TestStepEffects | assembly/internal/test/run.ts:150-158 | a test adds exactly one test report and keeps the trace consistent |
| GuestRunner.CallHooksShape | assembly/internal/test/run.ts:93-99 | one level's loop calls the hooks in order: all of them, or a prefix then the failing hook and one group end, or a prefix then a trap exactly when the bound exceeds the list |
| GuestRunner.PhaseWalkShape | assembly/internal/test/run.ts:88-142 | a walk calls `Invoked` in order: all of it when it goes on, else a prefix and then the failing call with one group end, or a trap |
| GuestRunner.PhaseInvokesHookChain | assembly/internal/test/run.ts:102-142 | beforeEach, afterEach, afterAll and the corrected beforeAll call exactly the hook lists of the parent chain, outermost first |
| GuestRunner.CallHooksEffects | assembly/internal/test/run.ts:93-99 | one level's loop adds only call events, plus one group end exactly when it aborts, and cannot trap when the list is long enough |
| GuestRunner.PhaseWalkEffects | assembly/internal/test/run.ts:88-142 | a walk adds only call events and one group end exactly when it aborts; only the as-written beforeAll walk can trap |
| GuestRunner.EmptyChainWalk | assembly/internal/test/run.ts:102-142 | a phase with no hooks along the chain calls nothing and goes on |
| GuestRunner.TestTurnEffects | assembly/internal/test/run.ts:63-77 | one turn of the test loop never traps, reports no group, and adds one group end exactly when it stops the loop |
| GuestRunner.WalkStoppedByHook | assembly/internal/test/run.ts:102-142 | a beforeEach, afterEach or afterAll walk that does not go on has aborted, and its trace ends with a failed call of a hook of its chain and the group end |
| GuestRunner.TestTurnOutcome | assembly/internal/test/run.ts:63-77 | a rejected test adds only its `createTest` report; a turn stops the loop only when a beforeEach or afterEach hook of the chain fails, never because the test fails |
| GuestRunner.TestsFromOutcome | assembly/internal/test/run.ts:62-85 | the test loop stops early only on a failed beforeEach, afterEach or afterAll hook, ending the trace with that call and the group end; otherwise the trace ends with the group end |
| GuestRunner.PhaseWalkSucceeds | assembly/internal/test/run.ts:102-142 | a walk whose hooks along the chain all succeed goes on |
| GuestRunner.TestsFromEffects | assembly/internal/test/run.ts:62-85 | the test loop never traps and ends the group exactly once, whether it completes or a hook stops it |
| GuestRunner.EveryAcceptedTestEnds | assembly/internal/test/run.ts:62-78 | a failing test does not stop the loop: when every beforeEach, afterEach and afterAll hook of the chain succeeds, the loop completes and every accepted test is reported once, whatever its outcome, and rejected tests are not |
| GuestRunner.GroupRunEffects | assembly/internal/test/run.ts:44-86 | (corrected beforeAll walk) a group is reported once by name; a rejected group adds nothing else; an accepted one ends exactly once |
| GuestRunner.RunFromEffects | assembly/internal/test/run.ts:35-37 | (corrected beforeAll walk) the group loop reports the remaining groups by name, in order, and ends the accepted ones |
| GuestRunner.RunReport | assembly/internal/test/run.ts:32-40 | (corrected beforeAll walk) the whole run: names, group ends, one final `finish`, consistent test reports |
| GuestRunner.BeforeAllReadsBeforeEach | assembly/internal/test/run.ts:93-94 | as written, a group with beforeAll hook h and beforeEach hook e calls e before its tests; the corrected walk calls h |
| GuestRunner.BeforeAllWithoutBeforeEachTraps | assembly/internal/test/run.ts:93-94 | as written, a group with a beforeAll hook and no beforeEach hook traps; the corrected walk calls the hook |
| GuestRunner.InheritedHookRunsTwice | assembly/internal/test/TestContext.ts:25 | a child inheriting beforeEach hook 1 and adding hook 2 calls 1, 1, 2, because the copy and the parent walk both call 1 |
| StackTrace.Search | src/test/TestContext.ts:11 | the scan finds the pattern, ignoring ASCII case, exactly when it occurs at or after the start position |
| StackTrace.WasmFilter | src/test/TestContext.ts:11 | `wasmFilter` holds exactly when the line contains "wasm-function", ignoring case |
| StackTrace.KeepWasm | src/test/TestContext.ts:287 | the kept lines are exactly the matching ones, and no more than there were |
| StackTrace.Split | src/test/TestContext.ts:285 | a split yields at least one piece and no piece contains a newline |
| StackTrace.JoinSplit | src/test/TestContext.ts:285-288 | joining the pieces of a split gives back the text |
| StackTrace.SplitJoin | src/test/TestContext.ts:285-288 | splitting a join of newline-free lines gives back the lines |
| StackTrace.KeepWasmAppend | src/test/TestContext.ts:287 | filtering distributes over concatenation, so line order is kept |
| StackTrace.KeepWasmIdempotent | src/test/TestContext.ts:287 | filtering twice is filtering once |
| StackTrace.LogStackTraceLines | src/test/TestContext.ts:281-289 | a log stack trace is the later frames that mention "wasm-function", in order, or empty when there are none |
| StackTrace.ErrorStackTraceLines | src/test/TestContext.ts:294-297 | an error stack trace is the first line, kept whatever it says, followed by the matching later frames |
| HostContext.Slice | src/test/TestContext.ts:165 | the copied bytes never exceed the memory, and an in-range reference gives exactly the referenced bytes |
| HostContext.TestContext.constructor | src/test/TestContext.ts:44-54 | the settings are the defaults, each overridden by a supplied parameter; nothing is pending and the log target is empty |
| HostContext.ConfigureAll | src/test/TestContext.ts:44-54 | parameters that supply every field, with a non-empty file name, are all taken |
| HostContext.ConfigureFields | src/test/TestContext.ts:44-54 | with no parameters every field is the default; each of the seven fields takes the supplied value when supplied and keeps its default otherwise, an empty file name leaving the equal default |
| HostContext.TestContext.ReportActualNull | src/test/TestContext.ts:98-105 | the pending actual becomes a null with the filtered log stack, and nothing else changes |
| HostContext.TestContext.ReportExpectedNull | src/test/TestContext.ts:112-120 | the pending expected becomes a null, negated exactly when the flag is 1 |
| HostContext.TestContext.ReportActualValue | src/test/TestContext.ts:127-134 | the pending actual is the number, with its decimal text as message |
| HostContext.TestContext.ReportExpectedValue | src/test/TestContext.ts:142-150 | the pending expected is the number, negated exactly when the flag is 1 |
| HostContext.TestContext.ReportActualReference | src/test/TestContext.ts:158-168 | the pending actual records the pointer, the size and a copy of the referenced bytes |
| HostContext.TestContext.ReportExpectedReference | src/test/TestContext.ts:177-188 | the same for the expected side, with the negation flag |
| HostContext.TestContext.ReportExpectedTruthy | src/test/TestContext.ts:195-202 | the pending expected is a truthy marker with no value |
| HostContext.TestContext.ReportExpectedFalsy | src/test/TestContext.ts:209-216 | the pending expected is a falsy marker with no value |
| HostContext.TestContext.ReportExpectedFinite | src/test/TestContext.ts:223-230 | the pending expected is a finite marker with no value |
| HostContext.TestContext.ReportActualString | src/test/TestContext.ts:237-245 | the pending actual's message is the decoded string and its pointer is recorded |
| HostContext.TestContext.ReportExpectedString | src/test/TestContext.ts:253-262 | the same for the expected side, with the negation flag |
| HostContext.TestContext.Abort | src/test/TestContext.ts:274-276 | the log target's message becomes the decoded reason; nothing else changes |
| HostContext.TestContext.TryCall | src/test/TestContext.ts:313-323 | -1 gives 1 without a call; otherwise 1 exactly when there is an instance and the call returns; a throw, including the TypeError of a missing instance, records the filtered error stack and changes nothing else |
| HostContext.TestContext.LogNull | src/test/TestContext.ts:328-340 | exactly one null entry is appended to the logs |
| HostContext.TestContext.ClearExpected | src/test/TestContext.ts:346-350 | both pending diagnostics and the failure stack are cleared, and the logs stay |
| HostContext.TestContext.LogReference | src/test/TestContext.ts:358-372 | one entry is appended holding the pointer, the size and a copy of the bytes |
| HostContext.TestContext.LogString | src/test/TestContext.ts:379-392 | one entry is appended with the decoded string and offset 0 |
| HostContext.TestContext.LogNumber | src/test/TestContext.ts:399-410 | one entry is appended whose message is "Value " and the number's text |
| HostContext.AssignLaterWins | src/test/TestContext.ts:63 | `Object.assign` agrees with the reference: a key is present exactly when some argument has it, and its value is the last one's |
| HostContext.CreateImportsMerge | src/test/TestContext.ts:62-84 | `__aspect` is always the context's own bindings, and every other key except `env` comes from the last argument that has it |
| HostContext.CreateImportsEnv | src/test/TestContext.ts:85-92 | `env` keeps the supplied entries, and its `abort` calls the supplied abort, if any, before the context's own |
| CliRun.Lookup | src/cli/run.ts:177 | a flag is found exactly when it is one of the object's keys |
| CliRun.Put | src/cli/run.ts:182 | assigning a key sets its value, leaves every other key's value, and keeps key order, appending a new key at the end |
| CliRun.WithRtrace | src/cli/run.ts:177-184 | `--use` gains `--use ASC_RTRACE=1` after its existing options, or is set to `ASC_RTRACE=1`; no other flag changes |
| CliRun.AssignFromLookup | src/cli/run.ts:116 | `Object.assign` agrees with the reference: a source key wins and other keys keep the target's value |
| CliRun.FixedFlagsWin | src/cli/run.ts:116-121 | `--validate`, `--debug`, `--binaryFile output.wasm` and `--explicitStart` hold whatever the command line and the configuration say |
| CliRun.RtraceFlag | src/cli/run.ts:177-184 | with tracing on, `--use` ends with `ASC_RTRACE=1` after the user's options; with it off, `--use` is as the user set it |
| CliRun.FlagListFlattens | src/cli/run.ts:226-227 | the reduce yields each flag followed by its options, in entry order |
| CliRun.Passing | src/cli/run.ts:338 | no more tests pass than there are tests |
| CliRun.PassTotalBounded | src/cli/run.ts:335-338 | over a module's groups, passing tests never exceed tests |
| CliRun.GroupPassFoldCounts | src/cli/run.ts:340-341 | the group reduce adds one per passing group to its start value, at most one per group |
| CliRun.StepBounded | src/cli/run.ts:330-343 | one module keeps passes within totals |
| CliRun.TotalsBounded | src/cli/run.ts:303-346 | over any modules, successes never exceed tests and passing groups never exceed groups |
| CliRun.InstantiationFailureFails | src/cli/run.ts:330-331 | a module that fails to instantiate makes the run fail, because errors are never dropped |
| CliRun.AllPassingSucceeds | src/cli/run.ts:352 | a run whose tests all pass and which collected no error does not fail |
| CliRun.Summary.constructor | src/cli/run.ts:221-235 | counters zero, no errors, the count of files still to report, not failed |
| CliRun.Summary.ModuleDone | src/cli/run.ts:329-356 | a module's counts are added (or only its instantiation errors); the count drops by one; the verdict is set when the last module reports |
| CliRun.RunModules | src/cli/run.ts:245-356 | after every module the counters are the fold `Totals`; the run failed exactly when tests ran, there was a module, and a test failed or an error was collected |
| CliRun.SourceFiles | src/cli/run.ts:257 | exactly the listed names that end in ".ts", do not end in ".d.ts" and hold no line terminator |
| CliRun.CompilerHost.constructor | src/cli/run.ts:211-238 | both caches, the binaries and the queued writes start empty |
| CliRun.CompilerHost.ListFiles | src/cli/run.ts:250-263 | a cached folder is answered from the cache; otherwise its source files are listed and cached; an unreadable folder gives none and is not cached |
| CliRun.CompilerHost.ReadFile | src/cli/run.ts:264-277 | a cached file is answered from the cache; otherwise it is read and cached; an unreadable file gives `null` and is not cached |
| CliRun.CompilerHost.WriteFile | src/cli/run.ts:278-288 | a `.wasm` output is always kept as the module's binary and queued only when binaries are requested; any other output is always queued, next to the test file under its base name |

## Left out

- Time: `now()`, the `start` and `end` fields of a context, the timings passed to `testEnd`, and performance sampling are not modelled. The clock is outside the guest.
- GuestRunner.RunTest: the start and end times passed to `testEnd` are not recorded, because the clock is left out.
- The host side of `createGroup`, `createTest`, `testEnd`, `groupEnd` and `finish` is not part of this model. So are the regular-expression filters and the result records. The guest runner sees the host only through the `Host` value.
- A trap in the guest is a runtime abort of the module. The model stops the as-written beforeAll walk with a `Trapped` status. What the host then records is not modelled.
- `debug()` is a `debugger` statement with no effect on state and is left out.
- The `describe` body is any user code. The model takes a script of registrar calls, so other work done inside a body is not captured. The default arguments of `describe` are the empty name and the empty script.
- `contextStackIndex` is an `i32`. The model uses an unbounded integer, so nesting deeper than 2^31 groups is not captured.
- Aliasing between host objects is not modelled: `Object.assign` writes into `ascOptions` itself, `flags["--use"].push` mutates the configuration's own array, and `createImports` overwrites `abort` on the caller's `env` object. The model returns new values instead.
- `ActualValue.target` always refers to the context's one log target and is not stored. `negated` on an actual value is taken to be `false`, the value a report of the actual side leaves it at.
- The methods other than `tryCall` that dereference `this.wasm!` require the instance to be set. Without it they throw a TypeError out of the import, and that path is not modelled. `tryCall` dereferences it inside its `try`, and the model covers that case.
- Numbers are `F64` values: finite reals, -0, the infinities and NaN. Rounding to the nearest double is not modelled: a finite value is kept exactly as passed.
- The stack text a `new Error()` captures, a thrown error's `stack`, `Number.prototype.toString`, and the loader's `__getString` and `__call` are parameters. None of them can be seen from here.
- Regular expressions are modelled only for the two fixed patterns the core uses.
- The CLI's argument parsing, configuration loading, test-file globbing, compilation (`asc.main`), module instantiation, custom-import loading, reporters, console output, the optimisation warning, file writing and `process.exit` are left out. `Summary.ModuleDone` is the callback for a module that compiled and emitted a binary. The two other paths exit the process. The file system and Node's `path` functions are parameters.
- CliRun.Summary.ModuleDone: the host test run of a module is given as its results, not computed, because it runs compiled guest code.

## Findings

| source | as written | input that shows it | evidently intended | confidence | as-written member | corrected member |
|---|---|---|---|---|---|---|
| assembly/internal/test/describe.ts:31 | after the index is incremented, `contextStack.length >= contextStackIndex` always holds, so the child is always pushed at the end and the overwrite branch is dead | `describe("A", () => {}); describe("B", () => { it("t", cb) })`: the current context inside B is still A, so "t" is registered in group A | push only when the stack is no longer than the new index, else overwrite that slot, so each new group is the current context while its body runs | high; not executed | Registration.StaleSiblingSlot | Registration.Session.DescendCorrected |
| assembly/internal/test/run.ts:94 | the beforeAll loop is bounded by `beforeAll.length` but calls `beforeEach[i]` | a group with `beforeAll(h)` and `beforeEach(e)`: `e` is called where `h` should be; with `beforeAll(h)` and no beforeEach hook, the index is past the end and the guest traps | call `beforeAll[i]` | high; not executed | GuestRunner.BeforeAllReadsBeforeEach | GuestRunner.RunBeforeAllCorrected |
