/** The `Module` class: the event dispatcher that closes the previous
    interval by the previous event's kind and then applies the current
    event, over an immutable session record. */
module Profiler {
  import opened Common
  import opened Sums
  import opened Frames
  import opened Functions

  /** `Instruction`: the kind remembered from the last event. */
  datatype Instruction =
    Origin | Line | Call | Return | Exception | CCall | CReturn | CException | Invalid

  /** The host's trace event kinds (`PyTrace_*`). */
  datatype What =
    | TraceLine | TraceCall | TraceReturn | TraceCCall | TraceCReturn
    | TraceException | TraceCException | TraceOpcode

  /** One trace event: its kind, the code object of the reporting frame, the
      frame's absolute line number, the display name of the native callable
      (meaningful for `TraceCCall`), and the clock readings taken on entry to
      and on exit from the engine. */
  datatype Event = Event(what: What, code: Code, line: Size, cName: string, entry: int, exit: int)

  /** What source retrieval reports for a code object: every source line of
      the function, the definition line included, and the number of the
      first one. */
  datatype Source = Source(lines: seq<string>, start: Size)

  /** The host collaborators: source retrieval and the code object's name. */
  datatype Host = Host(source: Code -> Source, name: Code -> string)

  /** Which reading of the code to run: the code as written, or with the two
      defects listed in the README corrected. */
  datatype Variant = AsWritten | Corrected

  /** The session state held by `Module`. The top of the frame stack is the
      last element of `stack`. */
  datatype Module = Module(
    last: Instruction,
    stack: seq<FrameState>,
    functions: map<Code, Function>,
    cFunctions: map<string, BaseFunction>,
    lastCName: string,
    lastStart: int)

  /** A freshly constructed `Module`: no kind seen yet, nothing registered,
      the default (epoch) start time. */
  function Init(): Module {
    Module(Invalid, [], map[], map[], "", 0)
  }

  /** `Module::start` without the hook registration: only the last kind is
      reset; the stack and both registries are kept. */
  function Start(m: Module): (r: Module)
    ensures r.last == Origin
    ensures r.(last := m.last) == m
  {
    m.(last := Origin)
  }

  /** The lines kept by `get_lines`: all but the first (the definition line). */
  function GetLines(s: Source): (r: seq<string>)
    ensures |s.lines| == 0 ==> r == []
    ensures |s.lines| > 0 ==> |r| == |s.lines| - 1
    ensures forall i :: 0 <= i < |r| ==> r[i] == s.lines[i + 1]
  {
    if |s.lines| == 0 then [] else s.lines[1..]
  }

  /** `Module::elapsed`: from the end of the previous event's processing to
      the start of this one's. */
  function Elapsed(m: Module, entry: int): int {
    entry - m.lastStart
  }

  function Top(stack: seq<FrameState>): FrameState
    requires |stack| > 0
  {
    stack[|stack| - 1]
  }

  /** The stack with its top frame replaced. */
  function WithTop(stack: seq<FrameState>, f: FrameState): (r: seq<FrameState>)
    requires |stack| > 0
    ensures |r| == |stack| && Top(r) == f && r[..|r| - 1] == stack[..|stack| - 1]
  {
    stack[..|stack| - 1] + [f]
  }

  // ---------------------------------------------------------------- registries

  /** `Module::add_function`: get-or-create; an existing entry is never
      replaced, a new one is built from the retrieved source lines. */
  function AddFunction(h: Host, fs: map<Code, Function>, code: Code): (r: map<Code, Function>)
    ensures r.Keys == fs.Keys + {code}
    ensures forall c :: c in fs ==> r[c] == fs[c]
    ensures code !in fs ==> r[code] == NewFunction(h.name(code), GetLines(h.source(code)), code)
  {
    if code in fs then fs
    else fs[code := NewFunction(h.name(code), GetLines(h.source(code)), code)]
  }

  /** `Module::add_c_function`: `emplace` never overwrites an existing entry. */
  function AddCFunction(cfs: map<string, BaseFunction>, name: string): (r: map<string, BaseFunction>)
    ensures r.Keys == cfs.Keys + {name}
    ensures forall n :: n in cfs ==> r[n] == cfs[n]
    ensures name !in cfs ==> r[name] == NewBaseFunction(name)
  {
    if name in cfs then cfs else cfs[name := NewBaseFunction(name)]
  }

  // ---------------------------------------------------------------- frames

  /** `Module::emplace_frame`: source is fetched again, and the new frame is
      sized to the lines that fetch returns. */
  function EmplaceFrame(h: Host, m: Module, code: Code): (r: Module)
    ensures |r.stack| == |m.stack| + 1 && r.stack[..|m.stack|] == m.stack
    ensures Top(r.stack) == NewFrame(code, |GetLines(h.source(code))|, h.source(code).start)
    ensures r.(stack := m.stack) == m
  {
    var src := h.source(code);
    m.(stack := m.stack + [NewFrame(code, |GetLines(src)|, src.start)])
  }

  /** The loop of `pop_frame` that folds a frame's lines into its function.
      As written the index never advances, so every line lands on index 0;
      corrected, line `i` lands on index `i`. Lines are visited first to
      last. */
  function FoldLines(v: Variant, f: Function, lines: seq<LineState>): (r: Result<Function>)
    ensures r.Err? ==> r.fault == FunctionLineOutOfRange
    ensures r.Ok? ==>
              && r.value.(lineTime := f.lineTime, lineTimeInternal := f.lineTimeInternal) == f
              && |r.value.lineTime| == |f.lineTime|
              && |r.value.lineTimeInternal| == |f.lineTimeInternal|
    decreases |lines|
  {
    if |lines| == 0 then Ok(f)
    else
      var n := |lines| - 1;
      var f1 :- FoldLines(v, f, lines[..n]);
      var index := if v == AsWritten then 0 else n;
      var f2 :- AddElapsed(f1, index, lines[n].external);
      AddElapsedInternal(f2, index, lines[n].internal)
  }

  /** Folding leaves everything but the two accumulators alone, and adds the
      frame's child and self sums to their totals, under either variant. */
  lemma {:induction false} FoldLinesTotals(v: Variant, f: Function, lines: seq<LineState>)
    ensures var r := FoldLines(v, f, lines);
            r.Err? ==> r.fault == FunctionLineOutOfRange
    ensures var r := FoldLines(v, f, lines);
            r.Ok? ==>
              && r.value.(lineTime := f.lineTime, lineTimeInternal := f.lineTimeInternal) == f
              && |r.value.lineTime| == |f.lineTime|
              && |r.value.lineTimeInternal| == |f.lineTimeInternal|
              && Sum(r.value.lineTime) == Sum(f.lineTime) + ExternalSum(lines)
              && Sum(r.value.lineTimeInternal) == Sum(f.lineTimeInternal) + InternalSum(lines)
    decreases |lines|
  {
    if |lines| > 0 {
      FoldLinesTotals(v, f, lines[..|lines| - 1]);
    }
  }

  /** `Module::pop_frame`: fold the top frame into its function, pop it, and
      charge its total to the new top's current line as child time. */
  function PopFrame(v: Variant, m: Module): (r: Result<Module>)
    requires |m.stack| > 0
    ensures r.Err? ==> r.fault in {UnknownFunction, FunctionLineOutOfRange, FrameLineOutOfRange}
    ensures r.Ok? ==> Top(m.stack).key in m.functions && Top(m.stack).key in r.value.functions
    ensures r.Ok? ==>
              var frame := Top(m.stack);
              var f := m.functions[frame.key];
              var f' := r.value.functions[frame.key];
              && f'.(base := f.base, lineTime := f.lineTime, lineTimeInternal := f.lineTimeInternal) == f
              && f'.base.overhead == f.base.overhead + frame.internal
              && f'.base.name == f.base.name
              && |f'.lineTime| == |f.lineTime| && |f'.lineTimeInternal| == |f.lineTimeInternal|
              && Sum(f'.lineTime) == Sum(f.lineTime) + ExternalSum(frame.lines)
              && Sum(f'.lineTimeInternal) == Sum(f.lineTimeInternal) + InternalSum(frame.lines)
    ensures r.Ok? ==>
              && r.value.(stack := m.stack, functions := m.functions) == m
              && r.value.functions.Keys == m.functions.Keys
              && (forall c :: c in m.functions && c != Top(m.stack).key ==> r.value.functions[c] == m.functions[c])
              && |r.value.stack| == |m.stack| - 1
    ensures r.Ok? && |m.stack| >= 2 ==>
              var n := |m.stack|;
              && r.value.stack[..n - 2] == m.stack[..n - 2]
              && AddCurrentExternal(m.stack[n - 2], TotalTime(Top(m.stack))).Ok?
              && r.value.stack[n - 2] == AddCurrentExternal(m.stack[n - 2], TotalTime(Top(m.stack))).value
  {
    var frame := Top(m.stack);
    if frame.key !in m.functions then Err(UnknownFunction)
    else
      var charged := AddFunctionOverhead(m.functions[frame.key], frame.internal);
      FoldLinesTotals(v, charged, frame.lines);
      var f :- FoldLines(v, charged, frame.lines);
      var total := TotalTime(frame);
      var rest := m.stack[..|m.stack| - 1];
      var popped := m.(functions := m.functions[frame.key := f], stack := rest);
      if |rest| == 0 then Ok(popped)
      else
        var top :- AddCurrentExternal(Top(rest), total);
        Ok(popped.(stack := WithTop(rest, top)))
  }

  // ---------------------------------------------------------------- close-out

  /** `finish_line`: self time for the top frame's current line; nothing on
      an empty stack. */
  function FinishLine(m: Module, d: Duration): (r: Result<Module>)
    ensures |m.stack| == 0 ==> r == Ok(m)
    ensures r.Err? ==> r.fault == FrameLineOutOfRange
    ensures |m.stack| > 0 ==>
              (r.Ok? <==> CurrentLineIndex(Top(m.stack)).Ok?)
    ensures |m.stack| > 0 && r.Ok? ==>
              r.value == m.(stack := WithTop(m.stack, AddCurrentInternal(Top(m.stack), d).value))
  {
    if |m.stack| == 0 then Ok(m)
    else
      var top :- AddCurrentInternal(Top(m.stack), d);
      Ok(m.(stack := WithTop(m.stack, top)))
  }

  /** `finish_call`: the interval is credited to the overhead of the
      registered function of the frame reporting the current event, not to a
      frame. */
  function FinishCall(m: Module, code: Code, d: Duration): (r: Result<Module>)
    ensures r.Ok? <==> code in m.functions
    ensures r.Err? ==> r.fault == UnknownFunction
    ensures r.Ok? ==>
              && r.value.(functions := m.functions) == m
              && r.value.functions == m.functions[code := AddFunctionOverhead(m.functions[code], d)]
  {
    if code !in m.functions then Err(UnknownFunction)
    else Ok(m.(functions := m.functions[code := AddFunctionOverhead(m.functions[code], d)]))
  }

  /** `finish_return`: overhead for the top frame, then `pop_frame`. As
      written an empty stack is undefined behaviour; corrected it is a no-op. */
  function FinishReturn(v: Variant, m: Module, d: Duration): (r: Result<Module>)
    ensures |m.stack| == 0 ==> r == (if v == AsWritten then Err(UndefinedTop) else Ok(m))
    ensures |m.stack| > 0 ==>
              r == PopFrame(v, m.(stack := WithTop(m.stack, AddInternal(Top(m.stack), d))))
    ensures |m.stack| > 0 && r.Ok? ==>
              var key := Top(m.stack).key;
              && |r.value.stack| == |m.stack| - 1
              && key in m.functions && key in r.value.functions
              && r.value.functions[key].base.overhead
                 == m.functions[key].base.overhead + Top(m.stack).internal + d
  {
    if |m.stack| == 0 then
      if v == AsWritten then Err(UndefinedTop) else Ok(m)
    else
      PopFrame(v, m.(stack := WithTop(m.stack, AddInternal(Top(m.stack), d))))
  }

  /** `finish_ccall`: the same interval goes to the native callable's total
      and to the calling line's child time. As written an empty stack is
      undefined behaviour once the registry is credited; corrected only the
      registry is credited. */
  function FinishCCall(v: Variant, m: Module, d: Duration): (r: Result<Module>)
    ensures m.lastCName !in m.cFunctions ==> r == Err(UnknownCFunction)
    ensures |m.stack| == 0 && v == AsWritten && m.lastCName in m.cFunctions ==> r == Err(UndefinedTop)
    ensures |m.stack| > 0 && m.lastCName in m.cFunctions ==>
              (r.Ok? <==> CurrentLineIndex(Top(m.stack)).Ok?)
    ensures r.Ok? ==>
              && m.lastCName in m.cFunctions
              && r.value.cFunctions == m.cFunctions[m.lastCName := AddOverhead(m.cFunctions[m.lastCName], d)]
              && r.value.(cFunctions := m.cFunctions, stack := m.stack) == m
              && (|m.stack| == 0 ==> r.value.stack == m.stack)
              && (|m.stack| > 0 ==>
                    r.value.stack == WithTop(m.stack, AddCurrentExternal(Top(m.stack), d).value))
  {
    if m.lastCName !in m.cFunctions then Err(UnknownCFunction)
    else
      var credited := m.(cFunctions := m.cFunctions[m.lastCName := AddOverhead(m.cFunctions[m.lastCName], d)]);
      if |m.stack| == 0 then
        if v == AsWritten then Err(UndefinedTop) else Ok(credited)
      else
        var top :- AddCurrentExternal(Top(m.stack), d);
        Ok(credited.(stack := WithTop(m.stack, top)))
  }

  /** `finish_creturn`: overhead for the top frame. As written an empty stack
      is undefined behaviour; corrected it is a no-op. */
  function FinishCReturn(v: Variant, m: Module, d: Duration): (r: Result<Module>)
    ensures |m.stack| == 0 ==> r == (if v == AsWritten then Err(UndefinedTop) else Ok(m))
    ensures |m.stack| > 0 ==>
              && r.Ok? && |r.value.stack| == |m.stack|
              && Top(r.value.stack) == Top(m.stack).(internal := Top(m.stack).internal + d)
              && r.value.stack[..|m.stack| - 1] == m.stack[..|m.stack| - 1]
              && r.value.(stack := m.stack) == m
  {
    if |m.stack| == 0 then
      if v == AsWritten then Err(UndefinedTop) else Ok(m)
    else
      Ok(m.(stack := WithTop(m.stack, AddInternal(Top(m.stack), d))))
  }

  /** The first switch of `Module::profile`: close the previous interval
      according to the previous kind. It sees only the code object of the
      frame reporting the current event and the entry reading. */
  function Finish(v: Variant, m: Module, code: Code, entry: int): Result<Module> {
    var d := Elapsed(m, entry);
    match m.last
    case Origin => Ok(m)
    case Line => FinishLine(m, d)
    case Call => FinishCall(m, code, d)
    case Return => FinishReturn(v, m, d)
    case Exception => Ok(m)
    case CCall => FinishCCall(v, m, d)
    case CReturn => FinishCReturn(v, m, d)
    case CException => Ok(m)
    case Invalid => Ok(m)
  }

  // ---------------------------------------------------------------- current event

  /** `profile_line`: the kind becomes `Line`; with a frame on the stack its
      current line is set, and nothing else changes. */
  function ProfileLine(m: Module, line: Size): (r: Module)
    ensures r.last == Line
    ensures |m.stack| == 0 ==> r == m.(last := Line)
    ensures |m.stack| > 0 ==>
              && |r.stack| == |m.stack|
              && Top(r.stack) == Top(m.stack).(currentLine := line)
              && r.stack[..|m.stack| - 1] == m.stack[..|m.stack| - 1]
              && r.(last := m.last, stack := m.stack) == m
  {
    if |m.stack| == 0 then m.(last := Line)
    else m.(last := Line, stack := WithTop(m.stack, SetCurrentLine(Top(m.stack), line)))
  }

  /** `profile_call`: register the function, push a frame for it. */
  function ProfileCall(h: Host, m: Module, code: Code): (r: Module)
    ensures r.last == Call
    ensures r.functions == AddFunction(h, m.functions, code)
    ensures r.stack == m.stack + [NewFrame(code, |GetLines(h.source(code))|, h.source(code).start)]
    ensures r.(last := m.last, functions := m.functions, stack := m.stack) == m
  {
    EmplaceFrame(h, m.(functions := AddFunction(h, m.functions, code)), code).(last := Call)
  }

  /** `profile_c_call`: remember the callable's name and register it. */
  function ProfileCCall(m: Module, name: string): (r: Module)
    ensures r.last == CCall && r.lastCName == name
    ensures r.cFunctions == AddCFunction(m.cFunctions, name)
    ensures r.(last := m.last, lastCName := m.lastCName, cFunctions := m.cFunctions) == m
  {
    m.(last := CCall, lastCName := name, cFunctions := AddCFunction(m.cFunctions, name))
  }

  /** The second switch of `Module::profile`. `C_EXCEPTION` is handled as a
      native return; exceptions and opcodes change nothing. */
  function Dispatch(h: Host, m: Module, e: Event): Module {
    match e.what
    case TraceLine => ProfileLine(m, e.line)
    case TraceCall => ProfileCall(h, m, e.code)
    case TraceReturn => m.(last := Return)
    case TraceCCall => ProfileCCall(m, e.cName)
    case TraceCReturn => m.(last := CReturn)
    case TraceException => m
    case TraceCException => m.(last := CReturn)
    case TraceOpcode => m
  }

  /** `Module::profile`: close the previous interval, apply the event, and
      record the exit time as the start of the next interval. A thrown
      exception or undefined behaviour ends the step with its fault. */
  function Step(v: Variant, h: Host, m: Module, e: Event): Result<Module> {
    var closed :- Finish(v, m, e.code, e.entry);
    Ok(Dispatch(h, closed, e).(lastStart := e.exit))
  }

  /** After `Origin`, `Exception`, `CException` or `Invalid` nothing is
      credited and nothing changes; only the five crediting kinds can fail. */
  lemma FinishWithoutCredit(v: Variant, m: Module, code: Code, entry: int)
    ensures (m.last == Origin || m.last == Exception || m.last == CException || m.last == Invalid) ==>
              Finish(v, m, code, entry) == Ok(m)
    ensures Finish(v, m, code, entry).Err? ==>
              m.last == Line || m.last == Call || m.last == Return || m.last == CCall || m.last == CReturn
  {
  }

  /** Applying an event never touches the interval start; only a native
      call changes the pending name; events with nothing to record change
      only the kind. */
  lemma DispatchKeepsRest(h: Host, m: Module, e: Event)
    ensures Dispatch(h, m, e).lastStart == m.lastStart
    ensures Dispatch(h, m, e).lastCName == (if e.what == TraceCCall then e.cName else m.lastCName)
    ensures (e.what == TraceReturn || e.what == TraceCReturn || e.what == TraceException
             || e.what == TraceCException || e.what == TraceOpcode) ==> Dispatch(h, m, e).(last := m.last) == m
  {
  }

  /** Only closing the previous interval can fail, with its own fault;
      applying the event never does, and the exit reading starts the next
      interval. */
  lemma StepOutcome(v: Variant, h: Host, m: Module, e: Event)
    ensures Step(v, h, m, e).Ok? <==> Finish(v, m, e.code, e.entry).Ok?
    ensures Step(v, h, m, e).Err? ==> Step(v, h, m, e).fault == Finish(v, m, e.code, e.entry).fault
    ensures Step(v, h, m, e).Ok? ==> Step(v, h, m, e).value.lastStart == e.exit
  {
  }

  /** A session driven by a sequence of events. */
  function Run(v: Variant, h: Host, m: Module, trace: seq<Event>): Result<Module>
    decreases |trace|
  {
    if |trace| == 0 then Ok(m)
    else
      var m1 :- Step(v, h, m, trace[0]);
      Run(v, h, m1, trace[1..])
  }

  /** A run over two traces back to back is the second run started from
      where the first stopped; a fault in the first ends both. */
  lemma {:induction false} RunConcat(v: Variant, h: Host, m: Module, t1: seq<Event>, t2: seq<Event>)
    ensures Run(v, h, m, t1).Err? ==> Run(v, h, m, t1 + t2) == Run(v, h, m, t1)
    ensures Run(v, h, m, t1).Ok? ==> Run(v, h, m, t1 + t2) == Run(v, h, Run(v, h, m, t1).value, t2)
    decreases |t1|
  {
    if |t1| == 0 {
      assert t1 + t2 == t2;
    } else {
      assert (t1 + t2)[0] == t1[0];
      assert (t1 + t2)[1..] == t1[1..] + t2;
      var s := Step(v, h, m, t1[0]);
      if s.Ok? {
        RunConcat(v, h, s.value, t1[1..], t2);
      }
    }
  }
}
