/** Conservation of time. Self time (every overhead, every line's self
    bucket, every native total, in the registries and on the stack) grows at
    each event by exactly the interval that event closes, and only when the
    previous kind credits one. Child buckets are left out of the measure:
    they repeat time that is already counted as some callee's self time. */
module Accounting {
  import opened Common
  import opened Sums
  import opened Frames
  import opened Functions
  import opened Profiler

  /** Self time held by a function record. */
  function FunctionSelf(f: Function): int {
    f.base.overhead + Sum(f.lineTimeInternal)
  }

  /** Self time held by a live frame. */
  function FrameSelf(f: FrameState): int {
    f.internal + InternalSum(f.lines)
  }

  /** Self time held by the whole stack. */
  function StackSelf(stack: seq<FrameState>): int
    decreases |stack|
  {
    if |stack| == 0 then 0 else StackSelf(stack[..|stack| - 1]) + FrameSelf(stack[|stack| - 1])
  }

  ghost function FunctionSelves(fs: map<Code, Function>): map<Code, int> {
    map c | c in fs :: FunctionSelf(fs[c])
  }

  ghost function NativeTotals(cfs: map<string, BaseFunction>): map<string, int> {
    map n | n in cfs :: cfs[n].overhead
  }

  /** All self time recorded in a session. */
  ghost function SelfTime(m: Module): int {
    SumValues(FunctionSelves(m.functions)) + SumValues(NativeTotals(m.cFunctions)) + StackSelf(m.stack)
  }

  /** Whether closing an interval after kind `m.last` credits it anywhere.
      `Origin`, `Exception`, `CException` and `Invalid` never do. A line
      close-out, a return and a native return on an empty stack have nowhere
      to put it: the first is skipped, and the other two fault as written and
      are skipped corrected, so the variant does not matter here. */
  predicate Credits(m: Module) {
    match m.last
    case Line => |m.stack| > 0
    case Call => true
    case Return => |m.stack| > 0
    case CCall => true
    case CReturn => |m.stack| > 0
    case _ => false
  }

  /** The interval an event closes, as credited. */
  function Credit(m: Module, e: Event): int {
    if Credits(m) then Elapsed(m, e.entry) else 0
  }

  lemma FunctionSelfTimeUpdate(fs: map<Code, Function>, c: Code, f: Function)
    ensures SumValues(FunctionSelves(fs[c := f]))
            == SumValues(FunctionSelves(fs)) - (if c in fs then FunctionSelf(fs[c]) else 0) + FunctionSelf(f)
  {
    assert FunctionSelves(fs[c := f]) == FunctionSelves(fs)[c := FunctionSelf(f)];
    SumValuesUpdate(FunctionSelves(fs), c, FunctionSelf(f));
  }

  lemma NativeTotalUpdate(cfs: map<string, BaseFunction>, n: string, b: BaseFunction)
    ensures SumValues(NativeTotals(cfs[n := b]))
            == SumValues(NativeTotals(cfs)) - (if n in cfs then cfs[n].overhead else 0) + b.overhead
  {
    assert NativeTotals(cfs[n := b]) == NativeTotals(cfs)[n := b.overhead];
    SumValuesUpdate(NativeTotals(cfs), n, b.overhead);
  }

  lemma StackSelfWithTop(stack: seq<FrameState>, f: FrameState)
    requires |stack| > 0
    ensures StackSelf(WithTop(stack, f)) == StackSelf(stack) - FrameSelf(Top(stack)) + FrameSelf(f)
  {
    var r := WithTop(stack, f);
    assert r[..|r| - 1] == stack[..|stack| - 1];
  }

  lemma StackSelfPush(stack: seq<FrameState>, f: FrameState)
    ensures StackSelf(stack + [f]) == StackSelf(stack) + FrameSelf(f)
  {
    assert (stack + [f])[..|stack|] == stack;
  }

  /** Registering a function or a native callable adds no self time. */
  lemma RegistrationAddsNothing(h: Host, m: Module, code: Code, name: string)
    ensures SumValues(FunctionSelves(AddFunction(h, m.functions, code))) == SumValues(FunctionSelves(m.functions))
    ensures SumValues(NativeTotals(AddCFunction(m.cFunctions, name))) == SumValues(NativeTotals(m.cFunctions))
  {
    if code !in m.functions {
      FunctionSelfTimeUpdate(m.functions, code, NewFunction(h.name(code), GetLines(h.source(code)), code));
    }
    if name !in m.cFunctions {
      NativeTotalUpdate(m.cFunctions, name, NewBaseFunction(name));
    }
  }

  /** A call registers a zeroed record and pushes a zeroed frame. */
  lemma CallKeepsSelfTime(h: Host, m: Module, code: Code)
    ensures SelfTime(ProfileCall(h, m, code)) == SelfTime(m)
  {
    RegistrationAddsNothing(h, m, code, "");
    var src := h.source(code);
    var frame := NewFrame(code, |GetLines(src)|, src.start);
    ZeroSums(frame.lines);
    StackSelfPush(m.stack, frame);
  }

  /** Applying an event moves no time: it only registers zeroed records,
      pushes a zeroed frame or sets a current line. */
  lemma DispatchKeepsSelfTime(h: Host, m: Module, e: Event)
    ensures SelfTime(Dispatch(h, m, e)) == SelfTime(m)
  {
    match e.what
    case TraceLine =>
      if |m.stack| > 0 {
        StackSelfWithTop(m.stack, SetCurrentLine(Top(m.stack), e.line));
      }
    case TraceCall =>
      CallKeepsSelfTime(h, m, e.code);
    case TraceCCall =>
      RegistrationAddsNothing(h, m, 0, e.cName);
    case _ =>
  }

  /** Folding a popped frame moves its self time into its function record;
      charging its total to the caller's line adds only child time. */
  lemma PopFrameKeepsSelfTime(v: Variant, m: Module)
    requires |m.stack| > 0
    ensures PopFrame(v, m).Ok? ==> SelfTime(PopFrame(v, m).value) == SelfTime(m)
  {
    var r := PopFrame(v, m);
    if r.Ok? {
      var frame := Top(m.stack);
      var n := |m.stack|;
      var rest := m.stack[..n - 1];
      FunctionSelfTimeUpdate(m.functions, frame.key, r.value.functions[frame.key]);
      assert r.value.functions == m.functions[frame.key := r.value.functions[frame.key]];
      assert StackSelf(m.stack) == StackSelf(rest) + FrameSelf(frame);
      if n >= 2 {
        var caller := AddCurrentExternal(m.stack[n - 2], TotalTime(frame)).value;
        assert r.value.stack == WithTop(rest, caller);
        StackSelfWithTop(rest, caller);
      } else {
        assert r.value.stack == rest;
      }
    }
  }

  /** Closing an interval adds exactly the credited amount to self time. */
  lemma FinishCreditsInterval(v: Variant, m: Module, e: Event)
    ensures Finish(v, m, e.code, e.entry).Ok? ==>
              SelfTime(Finish(v, m, e.code, e.entry).value) == SelfTime(m) + Credit(m, e)
  {
    var d := Elapsed(m, e.entry);
    var r := Finish(v, m, e.code, e.entry);
    if r.Ok? {
      match m.last
      case Line =>
        if |m.stack| > 0 {
          StackSelfWithTop(m.stack, AddCurrentInternal(Top(m.stack), d).value);
        }
      case Call =>
        FunctionSelfTimeUpdate(m.functions, e.code, AddFunctionOverhead(m.functions[e.code], d));
      case Return =>
        if |m.stack| > 0 {
          var charged := m.(stack := WithTop(m.stack, AddInternal(Top(m.stack), d)));
          StackSelfWithTop(m.stack, AddInternal(Top(m.stack), d));
          PopFrameKeepsSelfTime(v, charged);
        }
      case CCall =>
        NativeTotalUpdate(m.cFunctions, m.lastCName, AddOverhead(m.cFunctions[m.lastCName], d));
        if |m.stack| > 0 {
          StackSelfWithTop(m.stack, AddCurrentExternal(Top(m.stack), d).value);
        }
      case CReturn =>
        if |m.stack| > 0 {
          StackSelfWithTop(m.stack, AddInternal(Top(m.stack), d));
        }
      case _ =>
    }
  }

  /** One event: self time grows by the credited interval, which is this
      event's entry time minus the previous event's exit time, and this
      event's exit time becomes the start of the next interval. */
  lemma StepCreditsInterval(v: Variant, h: Host, m: Module, e: Event)
    ensures Step(v, h, m, e).Ok? ==>
              && SelfTime(Step(v, h, m, e).value) == SelfTime(m) + Credit(m, e)
              && Step(v, h, m, e).value.lastStart == e.exit
  {
    var r := Finish(v, m, e.code, e.entry);
    if r.Ok? {
      FinishCreditsInterval(v, m, e);
      DispatchKeepsSelfTime(h, r.value, e);
    }
  }

  /** The time the engine spends processing an event, from its entry reading
      to its exit reading, has no effect on anything but the recorded exit. */
  lemma StepIgnoresProcessingTime(v: Variant, h: Host, m: Module, e: Event, exit: int)
    ensures Step(v, h, m, e.(exit := exit)).Ok? == Step(v, h, m, e).Ok?
    ensures Step(v, h, m, e).Ok? ==>
              Step(v, h, m, e.(exit := exit)).value == Step(v, h, m, e).value.(lastStart := exit)
  {
    var r := Finish(v, m, e.code, e.entry);
    if r.Ok? {
      assert Dispatch(h, r.value, e.(exit := exit)) == Dispatch(h, r.value, e);
    }
  }

  // ---------------------------------------------------------------- whole runs

  /** The intervals a run credits, step by step. */
  ghost function RunCredit(v: Variant, h: Host, m: Module, trace: seq<Event>): int
    decreases |trace|
  {
    if |trace| == 0 then 0
    else
      match Step(v, h, m, trace[0])
      case Err(_) => 0
      case Ok(m1) => Credit(m, trace[0]) + RunCredit(v, h, m1, trace[1..])
  }

  /** Time outside the engine: the gaps from each event's exit reading (or the
      session's start) to the next event's entry reading. */
  function Gaps(start: int, trace: seq<Event>): int
    decreases |trace|
  {
    if |trace| == 0 then 0 else trace[0].entry - start + Gaps(trace[0].exit, trace[1..])
  }

  /** Each event enters the engine no earlier than the previous one left it. */
  predicate Ordered(start: int, trace: seq<Event>)
    decreases |trace|
  {
    |trace| == 0 || (start <= trace[0].entry && Ordered(trace[0].exit, trace[1..]))
  }

  /** Over a run, self time grows by exactly the credited intervals. */
  lemma {:induction false} RunCreditsIntervals(v: Variant, h: Host, m: Module, trace: seq<Event>)
    ensures Run(v, h, m, trace).Ok? ==>
              SelfTime(Run(v, h, m, trace).value) == SelfTime(m) + RunCredit(v, h, m, trace)
    decreases |trace|
  {
    if |trace| > 0 {
      StepCreditsInterval(v, h, m, trace[0]);
      var r := Step(v, h, m, trace[0]);
      if r.Ok? {
        RunCreditsIntervals(v, h, r.value, trace[1..]);
      }
    }
  }

  /** With ordered clock readings, what a run credits lies between zero and
      the time spent outside the engine: the engine's own processing is
      never counted. */
  lemma {:induction false} RunCreditWithinGaps(v: Variant, h: Host, m: Module, trace: seq<Event>)
    requires Ordered(m.lastStart, trace)
    ensures 0 <= RunCredit(v, h, m, trace) <= Gaps(m.lastStart, trace)
    decreases |trace|
  {
    if |trace| > 0 {
      assert Gaps(m.lastStart, trace) == trace[0].entry - m.lastStart + Gaps(trace[0].exit, trace[1..]);
      var r := Step(v, h, m, trace[0]);
      if r.Ok? {
        StepCreditsInterval(v, h, m, trace[0]);
        RunCreditWithinGaps(v, h, r.value, trace[1..]);
      } else {
        GapsNonNegative(trace[0].exit, trace[1..]);
      }
    }
  }

  lemma {:induction false} GapsNonNegative(start: int, trace: seq<Event>)
    requires Ordered(start, trace)
    ensures Gaps(start, trace) >= 0
    decreases |trace|
  {
    if |trace| > 0 {
      GapsNonNegative(trace[0].exit, trace[1..]);
    }
  }

  /** The interval the next event closes runs from this event's exit
      reading: `elapsed()` measures only time spent outside the engine. */
  lemma ElapsedSincePreviousExit(v: Variant, h: Host, m: Module, e: Event, next: Event)
    requires Step(v, h, m, e).Ok?
    ensures Elapsed(Step(v, h, m, e).value, next.entry) == next.entry - e.exit
  {
  }

  /** A freshly constructed session holds no time, before and after `start()`. */
  lemma FreshSessionHoldsNothing()
    ensures SelfTime(Init()) == 0 && SelfTime(Start(Init())) == 0
  {
    assert FunctionSelves(map[]) == map[];
    assert NativeTotals(map[]) == map[];
  }

  /** Everything a run from a fresh session holds afterwards is what the run
      credited. */
  lemma FreshSessionSelfTime(v: Variant, h: Host, trace: seq<Event>)
    ensures Run(v, h, Start(Init()), trace).Ok? ==>
              SelfTime(Run(v, h, Start(Init()), trace).value) == RunCredit(v, h, Start(Init()), trace)
  {
    FreshSessionHoldsNothing();
    RunCreditsIntervals(v, h, Start(Init()), trace);
  }
}
