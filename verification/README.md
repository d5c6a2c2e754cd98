# bprof time accounting, modelled in Dafny

bprof is a line-level profiler for Python. Its core is the `Module` class in
`src/demo.cpp`. `Module` receives every trace event the interpreter emits.
For each event it first closes the interval that just ended. The interval
runs from the moment the engine finished processing the previous event to
the moment it was entered for this one, and it is credited according to the
*previous* event's kind. Then `Module` applies the current event: it pushes or
pops a frame, moves a frame's current line, or registers a function or native
callable. Each Python activation has a `FrameState` holding one `LineState`
(self time `internal`, child time `external`) per source line, plus an
overhead. Popping a frame folds these into the function's `Function` record.
Native callables are `BaseFunction` records keyed by display name.

The model is a pure step function over an immutable session record:

- `Profiler.Module` holds the last kind, the frame stack (a `seq`, top last),
  the two registries (`map`s), the pending native-call name and the exit
  reading of the previous event.
- `Profiler.Step(variant, host, module, event)` returns a `Result<Module>`.
  It runs `Finish` (the first switch of `Module::profile`, keyed by the last
  kind) and then `Dispatch` (the second switch, keyed by the event). The
  event's exit reading becomes the start of the next interval.
  `Profiler.Run` folds `Step` over a trace.
- Each event carries its kind, the reporting frame's code object, the
  frame's absolute line number, the native callable's name, and the clock
  readings taken on entry to and exit from the engine.
- Source retrieval and the code object's name come from `Profiler.Host`.
  `GetLines` drops the first retrieved line (the `def` line, or the first
  decorator of a decorated function), as `get_lines` does. This is why a frame's current line `L` addresses index
  `L - start - 1`.
- `current_line_` and `starting_line_` are `size_t`. The subtraction in
  `current_line()` is therefore computed modulo 2^64, and an index outside
  the frame's lines is the `.at` exception.
- A thrown `std::out_of_range` and `top()` on an empty stack (undefined
  behaviour) both end the step with `Err(fault)`.
- `Variant` selects the code as written (`AsWritten`) or with the two defects
  under "Findings" corrected (`Corrected`). Every general lemma is proved
  for both variants, except these, which describe one variant each:
  `Findings.FoldLinesFrozenIndex` (as written), and `Findings.FoldLinesPerIndex`,
  `Findings.CorrectedNeverUndefined`, `Findings.CorrectedRunNeverUndefined`
  and `Findings.CorrectedNativeCallOnEmptyStack` (corrected).

Main results:

- **Conservation of time.** Self time is the sum of:
  - every function's overhead and per-line self totals;
  - every native callable's total;
  - every live frame's overhead and line self buckets.

  At each event, self time grows by exactly the interval the event closes,
  and only when the previous kind credits one (`Accounting.StepCreditsInterval`).
  Over a run with ordered clock readings, what is credited lies between zero
  and the time spent outside the engine (`Accounting.RunCreditWithinGaps`).
  The engine's own processing time is never counted.
- **Bookkeeping.** The last kind follows a fixed table and is never
  `Exception` or `CException`. Stack depth and registry growth are exact per
  step. Under one host, and with no code object's address reused within the
  session (see "Left out"), a shape invariant is kept: frames and function
  records stay parallel and every frame is registered. With that invariant
  the only possible faults are named (`Invariants.StepFaults`).
- **A worked session.** In `Scenario.NativeCallScenario`, `f` runs a line,
  then a one-second native call `g()`, then another line, and returns. Under
  `Corrected`, the second is `f`'s child time on that line and also `g`'s
  total. Under `AsWritten`, all of `f`'s line time lands on its first body line.

Behaviour of the code worth noting:

- `start()` only resets the last kind. It does not clear the stack or the
  registries.
- A native exception is recorded as a native return (`kCReturn`). The
  interval after it is therefore charged to the top frame's overhead instead
  of being discarded.
- An `EXCEPTION` event leaves the last kind unchanged, so the interval after
  it is closed by the kind before it.
- A call's prologue time is charged to the function record of the frame
  reporting the *next* event. It is not charged to a frame.
- Malformed sequences (a return or native call with no Python frame on the
  stack) reach `top()` on an empty stack, which is undefined behaviour
  (see "Findings").
- A line reported on the function's own first line (one-line functions,
  lambdas) has no bucket and throws (`Frames.FirstSourceLineHasNoBucket`).

## Model

| member | source | states |
|---|---|---|
| Frames.NewFrame | src/demo.cpp:120-123 | a new frame has no current line (0), zero overhead, one zeroed `LineState` per retrieved line, and total time 0 |
| Frames.ComputeTotalTime | src/demo.cpp:143-150 | `total_time`, whose reference definition is `Frames.TotalTime` (self sum plus child sum): the loop adding both buckets of every line yields the sum of all self buckets plus the sum of all child buckets; the frame overhead is not part of it |
| Frames.CurrentLineIndex | src/demo.cpp:127 | the index addresses absolute line `L` as `start + 1 + index` modulo 2^64 and is in range; with line numbers below the `size_t` limit it succeeds exactly when `start < L <= start + n`, returning `L - start - 1`; otherwise the `.at` fault |
| Frames.NoLineBeforeFirstLineEvent | src/demo.cpp:136-137 | before any line event (current line 0) the current line is out of range |
| Frames.FirstSourceLineHasNoBucket | src/demo.cpp:127 | a line event on the function's first source line, which retrieval dropped, addresses no bucket |
| Frames.SetCurrentLine | src/demo.cpp:128 | only the current line changes; total time is unchanged |
| Frames.AddInternal | src/demo.cpp:130 | the frame overhead grows by `d`; lines and total time are unchanged |
| Frames.AddCurrentInternal | src/demo.cpp:107 | succeeds exactly when the current line is in range; that line's self bucket grows by `d`, every other line is unchanged, and the self sum and total time grow by `d` |
| Frames.AddCurrentExternal | src/demo.cpp:108 | succeeds exactly when the current line is in range; that line's child bucket grows by `d`, every other line is unchanged, and the child sum and total time grow by `d` |
| Functions.NewBaseFunction | src/demo.cpp:29 | a new native record has the given name and zero time |
| Functions.AddOverhead | src/demo.cpp:70-71 | the accumulated time grows by `d`; the name is kept |
| Functions.NewFunction | src/demo.cpp:85-91 | both accumulators have one entry per source line, all zero, summing to 0 |
| Functions.AddFunctionOverhead | src/demo.cpp:50 | the function's overhead grows by `d`; nothing else changes |
| Functions.AddElapsed | src/demo.cpp:62-64 | succeeds exactly when the index is in range; only that line's child total grows, by `d`, and the sum grows by `d` |
| Functions.AddElapsedInternal | src/demo.cpp:66-68 | succeeds exactly when the index is in range; only that line's self total grows, by `d`, and the sum grows by `d` |
| Profiler.Start | src/demo.cpp:216-221 | the last kind becomes `Origin`; stack, registries, pending name and start time are kept |
| Profiler.GetLines | src/demo.cpp:410-418 | the first source line is dropped: retrieved line `i` is source line `i + 1` |
| Profiler.AddFunction | src/demo.cpp:424-434 | get-or-create: the key set gains exactly `code`, existing entries are returned unchanged, a new entry is a zeroed record of the retrieved lines |
| Profiler.AddCFunction | src/demo.cpp:436-439 | `emplace` never overwrites: the key set gains exactly `name`, existing entries are unchanged, a new entry has zero time |
| Profiler.EmplaceFrame | src/demo.cpp:210-214 | exactly one frame is pushed, sized to a fresh retrieval of the source, and nothing below it changes |
| Profiler.FoldLines | src/demo.cpp:382-386 | the fold of `pop_frame` fails only with the `.at` fault of a function line, and on success changes nothing but the two accumulators, keeping their lengths |
| Profiler.FoldLinesTotals | src/demo.cpp:382-386 | under either variant, folding keeps the record's shape and adds the frame's child sum and self sum to the function's totals |
| Profiler.PopFrame | src/demo.cpp:378-394 | depth drops by one; the function's overhead grows by the frame's overhead and its line totals by the frame's sums; no other function changes; frames below the new top are unchanged; the new top's current line gains the popped frame's total as child time |
| Profiler.FinishLine | src/demo.cpp:354-359 | on an empty stack nothing changes; otherwise it succeeds exactly when the top's current line is in range, crediting it as self time |
| Profiler.FinishCall | src/demo.cpp:325-327 | fails exactly when the reporting frame's code object is unregistered; otherwise only that function's overhead is credited |
| Profiler.FinishReturn | src/demo.cpp:365-368 | the interval goes to the top frame's overhead before the pop; on an empty stack it is undefined behaviour as written and a no-op corrected |
| Profiler.FinishCCall | src/demo.cpp:349-352 | the native callable's total is credited; with a frame, the top's current line is credited as child time, succeeding exactly when that line is in range; on an empty stack it is undefined behaviour as written |
| Profiler.FinishCReturn | src/demo.cpp:374-376 | the interval goes to the top frame's overhead; on an empty stack it is undefined behaviour as written and a no-op corrected |
| Profiler.ProfileLine | src/demo.cpp:329-338 | the kind becomes `Line`; on an empty stack nothing else changes, otherwise only the top's current line is set |
| Profiler.ProfileCall | src/demo.cpp:318-323 | the function is registered (get-or-create), one fresh frame is pushed, the kind becomes `Call` |
| Profiler.ProfileCCall | src/demo.cpp:340-347 | the name becomes the pending native call and is registered; the kind becomes `CCall` |
| Profiler.FinishWithoutCredit | src/demo.cpp:260-287 | `Profiler.Finish`, the first switch of `profile`: after `Origin`, `Exception`, `CException` or `Invalid` the module is returned unchanged; only the five crediting kinds can fail |
| Profiler.DispatchKeepsRest | src/demo.cpp:289-314 | `Profiler.Dispatch`, the second switch of `profile`: it never touches the interval start; only a native call changes the pending name; return, native return, exception, native exception and opcode events change nothing but the kind |
| Profiler.StepOutcome | src/demo.cpp:257-316 | `Profiler.Step`, that is `profile`: it fails exactly when closing the previous interval fails, with that fault; applying the event never fails; on success the exit reading becomes the next interval's start |
| Profiler.RunConcat | src/demo.cpp:257-316 | a session fed two traces back to back ends where the second trace, started from the end of the first, ends; a fault in the first trace is final |
| Accounting.FreshSessionHoldsNothing | src/demo.cpp:195-203 | `Profiler.Init`, the constructed session (kind `Invalid`, empty stack and registries), holds no self time, before and after `start()` |
| Accounting.FreshSessionSelfTime | src/demo.cpp:195-221 | after any run from a freshly started session, the self time held is exactly the sum of the intervals credited |
| Accounting.ElapsedSincePreviousExit | src/demo.cpp:205-207 | `Profiler.Elapsed`: the interval the next event closes runs from this event's exit reading to that event's entry reading |
| Accounting.FinishCreditsInterval | src/demo.cpp:258-287 | closing an interval adds exactly the credited amount to self time: `entry - previous exit` after `Line` (non-empty stack), `Call`, `Return` (non-empty), `CCall`, `CReturn` (non-empty), and nothing after `Origin`, `Exception`, `CException`, `Invalid` |
| Accounting.PopFrameKeepsSelfTime | src/demo.cpp:378-394 | popping moves self time from the frame to its function and adds only child time to the caller |
| Accounting.DispatchKeepsSelfTime | src/demo.cpp:289-314 | applying an event moves no time: it registers zeroed records, pushes a zeroed frame, or sets a line |
| Accounting.StepCreditsInterval | src/demo.cpp:257-316 | per event, self time grows by exactly the credited interval, and the exit reading becomes the next interval's start |
| Accounting.StepIgnoresProcessingTime | src/demo.cpp:205-207 | the time spent inside the engine (from entry reading to exit reading) affects nothing but the recorded exit reading |
| Accounting.RunCreditsIntervals | src/demo.cpp:257-316 | over a run, self time grows by exactly the sum of the intervals credited step by step |
| Accounting.RunCreditWithinGaps | src/demo.cpp:258-315 | with ordered clock readings, the credited total lies between zero and the time spent outside the engine |
| Invariants.FinishKeepsShape | src/demo.cpp:260-287 | closing an interval keeps the kind, the pending name, the start reading and both registries' keys, and pops exactly one frame after a return on a non-empty stack |
| Invariants.DispatchShape | src/demo.cpp:289-314 | applying an event sets the kind by the table, pushes one frame and registers the code object for a call, and registers the name for a native call |
| Invariants.StepKind | src/demo.cpp:289-314 | the kind after a step follows the table: exception and opcode events keep the previous kind, a native exception is recorded as a native return |
| Invariants.StepDepth | src/demo.cpp:257-316 | depth changes by minus one after closing a return on a non-empty stack, plus one for a call event |
| Invariants.StepRegistries | src/demo.cpp:424-439 | the registries gain exactly the call's code object or the native call's name, and nothing is removed |
| Invariants.LineOnEmptyStack | src/demo.cpp:329-359 | a line close-out and a line event on an empty stack change nothing but the kind and the start reading |
| Invariants.RunNeverRecordsException | src/demo.cpp:289-314 | no run ever records `Exception` or `CException` as the last kind |
| Invariants.RunRegistriesOnlyGrow | src/demo.cpp:424-439 | no registry entry is ever removed during a run |
| Invariants.InitValid | src/demo.cpp:186-199 | the freshly constructed and the started session satisfy the shape invariant |
| Invariants.FoldLinesSucceeds | src/demo.cpp:382-386 | folding never throws when the function has a bucket for every line of the frame |
| Invariants.PopFrameOutcome | src/demo.cpp:378-394 | under the invariant, popping succeeds exactly when no caller remains or the caller's current line is in range |
| Invariants.PopFrameKeepsValid | src/demo.cpp:378-394 | popping keeps the shape invariant |
| Invariants.FinishKeepsValid | src/demo.cpp:260-287 | closing an interval keeps the shape invariant |
| Invariants.DispatchKeepsValid | src/demo.cpp:289-314 | applying an event keeps the shape invariant: a pushed frame and a newly registered function are both sized to the retrieved source |
| Invariants.StepKeepsValid | src/demo.cpp:257-316 | with one host throughout, every step keeps the shape invariant |
| Invariants.RunKeepsValid | src/demo.cpp:257-316 | with one host throughout, every run keeps the shape invariant |
| Invariants.StepFaults | src/demo.cpp:257-316 | under the invariant a step fails only on an out-of-range current line, on an unregistered code object after a call, or (as written) on a return, native call or native return closed on an empty stack |
| Invariants.NativeCallChargesBoth | src/demo.cpp:349-352 | closing a native call raises the native callable's total and the calling line's child time by the same amount, the elapsed interval |
| Findings.FoldLinesFrozenIndex | src/demo.cpp:382-386 | as written, every line of a popped frame is folded into index 0; the fold throws exactly when the frame has lines and the function has none |
| Findings.FoldLinesPerIndex | src/demo.cpp:382-386 | corrected, line `j` folds into index `j`, other indices are unchanged, and the fold succeeds exactly when the function has a bucket for every line |
| Findings.FrozenIndexMisattributes | src/demo.cpp:382-386 | a two-line frame whose second line ran 5 ns: as written the 5 ns land on index 0, corrected on index 1 |
| Findings.NativeCallOnEmptyStack | src/demo.cpp:351 | a started session with no Python frame, then a native call: as written its return reaches `top()` on an empty stack; corrected the callable receives its 8 ns |
| Findings.CorrectedNeverUndefined | src/demo.cpp:365-376 | corrected, no step reaches `top()` on an empty stack |
| Findings.CorrectedRunNeverUndefined | src/demo.cpp:257-316 | corrected, no run of events in any order reaches `top()` on an empty stack |
| Findings.CorrectedNativeCallOnEmptyStack | src/demo.cpp:349-352 | corrected, a native call closed on an empty stack credits the callable with the whole interval and touches nothing else |
| Scenario.NativeCallScenario | src/demo.cpp:257-316 | end to end: corrected, a one-second native call is its calling line's child time and the callable's total, each line keeps its own self time, and overhead collects prologue, native-return and return intervals; as written all line time sits on the first line |

## Left out

- Host-runtime glue is not modelled, because it is integration with the interpreter and not accounting:
  - `profile_func`, `trace_func`, the module functions, the module table and init;
  - the `PyEval_SetProfile`/`PyEval_SetTrace` calls in `start()` and `stop()`;
  - `stop()` itself.
- `get_lines` and `PyFrame_GetName` are calls into `inspect.getsourcelines` and the code object. They are the `Host` parameter; only the dropped first line is modelled. Reference counting and a failing retrieval (dynamically generated code) are not modelled.
- `dump` and the console output in `BaseFunction::add_elapsed_internal` are left out: they are floating-point console output only.
- The real clock is not modelled: each event carries its entry and exit readings as integers.
- `frame->f_trace_opcodes = 0` is left out: it has no accounting effect.
- The `std::hash<Function>` specialisation is left out: it is unused.
- `setup.py` is left out: it is packaging only.
- Nanosecond counts are unbounded integers. Signed 64-bit overflow of `std::chrono::nanoseconds` would take centuries of profiled time and is not modelled.
- A fault ends the step with no state. Effects applied before a throw (for example the native callable already credited when the line's `.at` throws) are not kept, because the exception escapes a C callback.
- The `throw` for a `what` value outside the eight trace kinds is not modelled: such a value is not representable. The unreachable `default` of the first switch is left out for the same reason.
- Line numbers from `PyFrame_GetLineNumber` are modelled as non-negative `size_t` values; a negative `int` is not.
- Reuse of a code object's address within a session is not modelled: `Code` is a permanent identity, and `Host.source` answers once per `Code` for the whole session. In the code, `functions_` is keyed by a raw `PyCodeObject*` and `Function` keeps no reference to it (src/demo.cpp:56, 87, 191). A freed code object's address can therefore be reused, for example after a module reload. `add_function` would then return the stale record (src/demo.cpp:426-427), while `emplace_frame` sizes the frame from the new source (src/demo.cpp:212-213). Under the corrected fold, popping such a frame can throw `FunctionLineOutOfRange`; as written, the time is folded into the stale record. The shape invariant (`Invariants.Valid`, `Invariants.RunKeepsValid`) and the fault list of `Invariants.StepFaults` hold only under this assumption.
- Source edited while profiling is not modelled. Retrieval is a function of the code object, but `emplace_frame` re-fetches the source on every call, so an edited source could size a frame differently from its function record.

## Findings

| source | as written | input that shows it | evidently intended | confidence | as-written member | corrected member |
|---|---|---|---|---|---|---|
| src/demo.cpp:382-386 | the loop index `i` is never incremented, so every line of a popped frame is added to line 0 of its function | a two-line frame whose second line accumulated 5 ns of self time | line `i` of the frame is added to line `i` of the function | high; not executed | Findings.FrozenIndexMisattributes | Findings.FoldLinesPerIndex |
| src/demo.cpp:351 | `finish_ccall` calls `frame_stack_.top()` without checking for an empty stack (likewise `finish_return`, src/demo.cpp:366, and `finish_creturn`, src/demo.cpp:375) | `start()`, then a native call and its return before any Python call event | skip the frame part on an empty stack, as `finish_line` does | medium; not executed | Findings.NativeCallOnEmptyStack | Findings.CorrectedRunNeverUndefined |
