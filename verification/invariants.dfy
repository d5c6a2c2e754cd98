/** Bookkeeping invariants of the dispatcher: how the last kind evolves,
    how deep the stack is, how the registries grow, the shape invariant that
    keeps frames and function records parallel, and which faults remain
    possible once it holds. */
module Invariants {
  import opened Common
  import opened Frames
  import opened Functions
  import opened Profiler

  /** The kind recorded after an event, as a table: exceptions and opcodes
      keep the previous kind, a native exception counts as a native return. */
  function NextKind(last: Instruction, what: What): Instruction {
    match what
    case TraceLine => Line
    case TraceCall => Call
    case TraceReturn => Return
    case TraceCCall => CCall
    case TraceCReturn => CReturn
    case TraceException => last
    case TraceCException => CReturn
    case TraceOpcode => last
  }

  /** Closing an interval never changes the kind, the pending native name,
      the interval start or either registry's keys, and pops exactly one
      frame after a return (on a non-empty stack). */
  lemma FinishKeepsShape(v: Variant, m: Module, code: Code, entry: int)
    ensures var r := Finish(v, m, code, entry);
            r.Ok? ==>
              && r.value.last == m.last
              && r.value.lastCName == m.lastCName
              && r.value.lastStart == m.lastStart
              && r.value.functions.Keys == m.functions.Keys
              && r.value.cFunctions.Keys == m.cFunctions.Keys
              && |r.value.stack| == |m.stack| - (if m.last == Return && |m.stack| > 0 then 1 else 0)
  {
    match m.last
    case Line =>
    case Call =>
    case Return =>
    case CCall =>
    case CReturn =>
    case _ =>
  }

  /** Applying an event: the kind follows the table, a call pushes one frame
      and registers its code object, a native call registers its name. */
  lemma DispatchShape(h: Host, m: Module, e: Event)
    ensures var r := Dispatch(h, m, e);
            && r.last == NextKind(m.last, e.what)
            && |r.stack| == |m.stack| + (if e.what == TraceCall then 1 else 0)
            && r.functions.Keys == m.functions.Keys + (if e.what == TraceCall then {e.code} else {})
            && r.cFunctions.Keys == m.cFunctions.Keys + (if e.what == TraceCCall then {e.cName} else {})
  {
    match e.what
    case TraceLine =>
    case TraceCall =>
    case TraceReturn =>
    case TraceCCall =>
    case TraceCReturn =>
    case TraceException =>
    case TraceCException =>
    case TraceOpcode =>
  }

  /** The kind after a step follows the table. */
  lemma StepKind(v: Variant, h: Host, m: Module, e: Event)
    ensures Step(v, h, m, e).Ok? ==> Step(v, h, m, e).value.last == NextKind(m.last, e.what)
  {
    var r := Finish(v, m, e.code, e.entry);
    if r.Ok? {
      FinishKeepsShape(v, m, e.code, e.entry);
      DispatchShape(h, r.value, e);
    }
  }

  /** Stack depth: one frame fewer after closing a return, one more for a call. */
  lemma StepDepth(v: Variant, h: Host, m: Module, e: Event)
    ensures Step(v, h, m, e).Ok? ==>
              |Step(v, h, m, e).value.stack|
              == |m.stack| - (if m.last == Return && |m.stack| > 0 then 1 else 0)
                 + (if e.what == TraceCall then 1 else 0)
  {
    var r := Finish(v, m, e.code, e.entry);
    if r.Ok? {
      FinishKeepsShape(v, m, e.code, e.entry);
      DispatchShape(h, r.value, e);
    }
  }

  /** The registries only grow, and only by the code object of a call or the
      name of a native call. */
  lemma StepRegistries(v: Variant, h: Host, m: Module, e: Event)
    ensures Step(v, h, m, e).Ok? ==>
              && Step(v, h, m, e).value.functions.Keys
                 == m.functions.Keys + (if e.what == TraceCall then {e.code} else {})
              && Step(v, h, m, e).value.cFunctions.Keys
                 == m.cFunctions.Keys + (if e.what == TraceCCall then {e.cName} else {})
  {
    var r := Finish(v, m, e.code, e.entry);
    if r.Ok? {
      FinishKeepsShape(v, m, e.code, e.entry);
      DispatchShape(h, r.value, e);
    }
  }

  /** A line event on an empty stack changes only the kind, and a line
      close-out on an empty stack changes nothing. */
  lemma LineOnEmptyStack(v: Variant, h: Host, m: Module, e: Event)
    requires |m.stack| == 0
    requires m.last == Line && e.what == TraceLine
    ensures Step(v, h, m, e) == Ok(m.(lastStart := e.exit))
  {
  }

  /** `Exception` and `CException` are never recorded: once the kind is
      neither, no run makes it so. */
  lemma {:induction false} RunNeverRecordsException(v: Variant, h: Host, m: Module, trace: seq<Event>)
    requires m.last != Exception && m.last != CException
    ensures Run(v, h, m, trace).Ok? ==>
              Run(v, h, m, trace).value.last != Exception && Run(v, h, m, trace).value.last != CException
    decreases |trace|
  {
    if |trace| > 0 {
      StepKind(v, h, m, trace[0]);
      var r := Step(v, h, m, trace[0]);
      if r.Ok? {
        RunNeverRecordsException(v, h, r.value, trace[1..]);
      }
    }
  }

  /** No registry entry is ever removed during a run. */
  lemma {:induction false} RunRegistriesOnlyGrow(v: Variant, h: Host, m: Module, trace: seq<Event>)
    ensures Run(v, h, m, trace).Ok? ==>
              && m.functions.Keys <= Run(v, h, m, trace).value.functions.Keys
              && m.cFunctions.Keys <= Run(v, h, m, trace).value.cFunctions.Keys
    decreases |trace|
  {
    if |trace| > 0 {
      StepRegistries(v, h, m, trace[0]);
      var r := Step(v, h, m, trace[0]);
      if r.Ok? {
        RunRegistriesOnlyGrow(v, h, r.value, trace[1..]);
      }
    }
  }

  // ---------------------------------------------------------------- shape invariant

  /** Every function record is well formed and sized to its retrieved source,
      every frame belongs to a registered function and has as many lines as
      it, and a pending native call is registered. */
  ghost predicate Valid(h: Host, m: Module) {
    && (forall c :: c in m.functions ==>
          m.functions[c].Valid() && |m.functions[c].lines| == |GetLines(h.source(c))|)
    && (forall i :: 0 <= i < |m.stack| ==>
          m.stack[i].key in m.functions && |m.stack[i].lines| == |m.functions[m.stack[i].key].lines|)
    && (m.last == CCall ==> m.lastCName in m.cFunctions)
  }

  lemma InitValid(h: Host)
    ensures Valid(h, Init())
    ensures Valid(h, Start(Init()))
  {
  }

  /** Replacing the top frame by one with the same key and line count keeps
      the frame part of the invariant. */
  lemma ValidWithTop(h: Host, m: Module, f: FrameState)
    requires Valid(h, m) && |m.stack| > 0
    requires f.key == Top(m.stack).key && |f.lines| == |Top(m.stack).lines|
    ensures Valid(h, m.(stack := WithTop(m.stack, f)))
  {
    var s := WithTop(m.stack, f);
    forall i | 0 <= i < |s|
      ensures s[i].key in m.functions && |s[i].lines| == |m.functions[s[i].key].lines|
    {
      if i < |s| - 1 {
        assert s[i] == s[..|s| - 1][i] == m.stack[..|m.stack| - 1][i] == m.stack[i];
      }
    }
  }

  /** Folding succeeds whenever the function has a bucket for every line. */
  lemma {:induction false} FoldLinesSucceeds(v: Variant, f: Function, lines: seq<LineState>)
    requires |lines| <= |f.lineTime| && |lines| <= |f.lineTimeInternal|
    ensures FoldLines(v, f, lines).Ok?
    decreases |lines|
  {
    if |lines| > 0 {
      FoldLinesSucceeds(v, f, lines[..|lines| - 1]);
      FoldLinesTotals(v, f, lines[..|lines| - 1]);
    }
  }

  /** Under the invariant, popping fails only when the caller's current line
      is out of range. */
  lemma PopFrameOutcome(h: Host, v: Variant, m: Module)
    requires Valid(h, m) && |m.stack| > 0
    ensures PopFrame(v, m).Ok? <==>
              (|m.stack| == 1 || CurrentLineIndex(m.stack[|m.stack| - 2]).Ok?)
    ensures PopFrame(v, m).Err? ==> PopFrame(v, m).fault == FrameLineOutOfRange
  {
    var n := |m.stack|;
    var frame := Top(m.stack);
    assert m.stack[n - 1] == frame;
    var f := m.functions[frame.key];
    assert f.Valid() && |frame.lines| == |f.lines|;
    var charged := AddFunctionOverhead(f, frame.internal);
    assert |charged.lineTime| == |f.lineTime| && |charged.lineTimeInternal| == |f.lineTimeInternal|;
    FoldLinesSucceeds(v, charged, frame.lines);
    var rest := m.stack[..n - 1];
    if n >= 2 {
      assert Top(rest) == m.stack[n - 2];
      var t := AddCurrentExternal(Top(rest), TotalTime(frame));
      assert t.Ok? <==> CurrentLineIndex(m.stack[n - 2]).Ok?;
    }
  }

  /** Popping keeps the invariant. */
  lemma PopFrameKeepsValid(h: Host, v: Variant, m: Module)
    requires Valid(h, m) && |m.stack| > 0
    ensures PopFrame(v, m).Ok? ==> Valid(h, PopFrame(v, m).value)
  {
    var r := PopFrame(v, m);
    if r.Ok? {
      var p := r.value;
      var key := Top(m.stack).key;
      forall c | c in p.functions
        ensures p.functions[c].Valid() && |p.functions[c].lines| == |GetLines(h.source(c))|
      {
        assert c in m.functions;
        if c != key {
          assert p.functions[c] == m.functions[c];
        }
      }
      PoppedFramesMatch(m, p);
    }
  }

  /** The frames left after a pop are the frames below the old top, with at
      most the new top's line buckets changed, and their records' line
      counts are unchanged. */
  lemma PoppedFramesMatch(m: Module, p: Module)
    requires |m.stack| > 0 && |p.stack| == |m.stack| - 1
    requires forall i :: 0 <= i < |m.stack| ==>
               m.stack[i].key in m.functions && |m.stack[i].lines| == |m.functions[m.stack[i].key].lines|
    requires p.functions.Keys == m.functions.Keys
    requires forall c :: c in m.functions ==> |p.functions[c].lines| == |m.functions[c].lines|
    requires |m.stack| >= 2 ==> p.stack[..|m.stack| - 2] == m.stack[..|m.stack| - 2]
    requires |m.stack| >= 2 ==>
               p.stack[|m.stack| - 2].key == m.stack[|m.stack| - 2].key
               && |p.stack[|m.stack| - 2].lines| == |m.stack[|m.stack| - 2].lines|
    ensures forall i :: 0 <= i < |p.stack| ==>
              p.stack[i].key in p.functions && |p.stack[i].lines| == |p.functions[p.stack[i].key].lines|
  {
    var n := |m.stack|;
    forall i | 0 <= i < |p.stack|
      ensures p.stack[i].key in p.functions && |p.stack[i].lines| == |p.functions[p.stack[i].key].lines|
    {
      if i < n - 2 {
        assert p.stack[i] == p.stack[..n - 2][i] == m.stack[..n - 2][i] == m.stack[i];
      }
    }
  }

  lemma FinishKeepsValid(h: Host, v: Variant, m: Module, code: Code, entry: int)
    requires Valid(h, m)
    ensures Finish(v, m, code, entry).Ok? ==> Valid(h, Finish(v, m, code, entry).value)
  {
    var d := Elapsed(m, entry);
    var r := Finish(v, m, code, entry);
    if r.Ok? {
      match m.last
      case Line =>
        if |m.stack| > 0 {
          ValidWithTop(h, m, AddCurrentInternal(Top(m.stack), d).value);
        }
      case Call =>
      case Return =>
        if |m.stack| > 0 {
          ValidWithTop(h, m, AddInternal(Top(m.stack), d));
          PopFrameKeepsValid(h, v, m.(stack := WithTop(m.stack, AddInternal(Top(m.stack), d))));
        }
      case CCall =>
        var credited := m.(cFunctions := m.cFunctions[m.lastCName := AddOverhead(m.cFunctions[m.lastCName], d)]);
        if |m.stack| > 0 {
          ValidWithTop(h, credited, AddCurrentExternal(Top(m.stack), d).value);
        }
      case CReturn =>
        if |m.stack| > 0 {
          ValidWithTop(h, m, AddInternal(Top(m.stack), d));
        }
      case _ =>
    }
  }

  lemma DispatchKeepsValid(h: Host, m: Module, e: Event)
    requires Valid(h, m)
    ensures Valid(h, Dispatch(h, m, e))
  {
    match e.what
    case TraceLine =>
      if |m.stack| > 0 {
        ValidWithTop(h, m.(last := Line), SetCurrentLine(Top(m.stack), e.line));
      }
    case TraceCall =>
      var r := Dispatch(h, m, e);
      forall i | 0 <= i < |r.stack|
        ensures r.stack[i].key in r.functions && |r.stack[i].lines| == |r.functions[r.stack[i].key].lines|
      {
        if i < |m.stack| {
          assert r.stack[i] == m.stack[i];
        }
      }
    case _ =>
  }

  /** With one host throughout, every step keeps the invariant. */
  lemma StepKeepsValid(v: Variant, h: Host, m: Module, e: Event)
    requires Valid(h, m)
    ensures Step(v, h, m, e).Ok? ==> Valid(h, Step(v, h, m, e).value)
  {
    var r := Finish(v, m, e.code, e.entry);
    if r.Ok? {
      FinishKeepsValid(h, v, m, e.code, e.entry);
      DispatchKeepsValid(h, r.value, e);
    }
  }

  lemma {:induction false} RunKeepsValid(v: Variant, h: Host, m: Module, trace: seq<Event>)
    requires Valid(h, m)
    ensures Run(v, h, m, trace).Ok? ==> Valid(h, Run(v, h, m, trace).value)
    decreases |trace|
  {
    if |trace| > 0 {
      StepKeepsValid(v, h, m, trace[0]);
      var r := Step(v, h, m, trace[0]);
      if r.Ok? {
        RunKeepsValid(v, h, r.value, trace[1..]);
      }
    }
  }

  /** Under the invariant a step can fail only because a current line is out
      of range, because the event after a call comes from an unregistered
      code object, or (as written) because a return, native call or native
      return is closed on an empty stack. */
  lemma StepFaults(v: Variant, h: Host, m: Module, e: Event)
    requires Valid(h, m)
    ensures var r := Step(v, h, m, e);
            r.Err? ==>
              || r.fault == FrameLineOutOfRange
              || (r.fault == UnknownFunction && m.last == Call && e.code !in m.functions)
              || (r.fault == UndefinedTop && v == AsWritten && |m.stack| == 0
                  && (m.last == Return || m.last == CCall || m.last == CReturn))
  {
    if m.last == Return && |m.stack| > 0 {
      var d := Elapsed(m, e.entry);
      ValidWithTop(h, m, AddInternal(Top(m.stack), d));
      PopFrameOutcome(h, v, m.(stack := WithTop(m.stack, AddInternal(Top(m.stack), d))));
    }
  }

  /** A native call's interval goes, in the same amount, to the native
      callable's total and to the calling line's child time. */
  lemma NativeCallChargesBoth(v: Variant, m: Module, code: Code, entry: int)
    requires m.last == CCall && |m.stack| > 0
    ensures var r := Finish(v, m, code, entry);
            r.Ok? ==>
              var i := CurrentLineIndex(Top(m.stack)).value;
              && m.lastCName in m.cFunctions && m.lastCName in r.value.cFunctions
              && |r.value.stack| == |m.stack| && i < |Top(r.value.stack).lines|
              && r.value.cFunctions[m.lastCName].overhead - m.cFunctions[m.lastCName].overhead
                 == Elapsed(m, entry)
              && Top(r.value.stack).lines[i].external - Top(m.stack).lines[i].external
                 == Elapsed(m, entry)
  {
  }
}
