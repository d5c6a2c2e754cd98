/** Two defects of the code as written, each shown by a concrete input, and
    the corrected behaviour with the property that was evidently intended. */
module Findings {
  import opened Common
  import opened Frames
  import opened Functions
  import opened Profiler

  // ------------------------------------------- the fold index never advances

  /** As written, every line of a popped frame is folded into index 0 of its
      function, and the fold throws when the frame has lines and the
      function has none. */
  lemma {:induction false} FoldLinesFrozenIndex(f: Function, lines: seq<LineState>)
    ensures FoldLines(AsWritten, f, lines).Ok? <==>
              (|lines| == 0 || (|f.lineTime| > 0 && |f.lineTimeInternal| > 0))
    ensures var r := FoldLines(AsWritten, f, lines);
            r.Ok? && |lines| > 0 ==>
              && r.value.lineTime == f.lineTime[0 := f.lineTime[0] + ExternalSum(lines)]
              && r.value.lineTimeInternal == f.lineTimeInternal[0 := f.lineTimeInternal[0] + InternalSum(lines)]
    decreases |lines|
  {
    if |lines| > 0 {
      var n := |lines| - 1;
      FoldLinesFrozenIndex(f, lines[..n]);
      FoldLinesTotals(AsWritten, f, lines[..n]);
      var r1 := FoldLines(AsWritten, f, lines[..n]);
      if r1.Ok? && |f.lineTime| > 0 && |f.lineTimeInternal| > 0 {
        var f2 := AddElapsed(r1.value, 0, lines[n].external).value;
        assert f2.lineTime[0] == f.lineTime[0] + ExternalSum(lines);
        assert AddElapsedInternal(f2, 0, lines[n].internal).value.lineTimeInternal[0]
               == f.lineTimeInternal[0] + InternalSum(lines);
      }
    }
  }

  /** Corrected, line `j` of a popped frame is folded into index `j`, and the
      fold succeeds exactly when the function has a bucket for every line. */
  lemma {:induction false} FoldLinesPerIndex(f: Function, lines: seq<LineState>)
    ensures FoldLines(Corrected, f, lines).Ok? <==>
              (|lines| <= |f.lineTime| && |lines| <= |f.lineTimeInternal|)
    ensures var r := FoldLines(Corrected, f, lines);
            r.Ok? ==>
              && |r.value.lineTime| == |f.lineTime|
              && |r.value.lineTimeInternal| == |f.lineTimeInternal|
              && (forall j :: 0 <= j < |lines| ==>
                    && r.value.lineTime[j] == f.lineTime[j] + lines[j].external
                    && r.value.lineTimeInternal[j] == f.lineTimeInternal[j] + lines[j].internal)
              && (forall j :: |lines| <= j < |f.lineTime| ==> r.value.lineTime[j] == f.lineTime[j])
              && (forall j :: |lines| <= j < |f.lineTimeInternal| ==>
                    r.value.lineTimeInternal[j] == f.lineTimeInternal[j])
    decreases |lines|
  {
    if |lines| > 0 {
      var n := |lines| - 1;
      FoldLinesPerIndex(f, lines[..n]);
      FoldLinesTotals(Corrected, f, lines[..n]);
    }
  }

  /** A two-line function whose second line ran for 5 ns: as written the 5 ns
      land on the first line; corrected they land on the second. */
  lemma FrozenIndexMisattributes()
    ensures var f := NewFunction("f", ["a = 1\n", "b = 2\n"], 7);
            var lines := [LineState(0, 0), LineState(5, 0)];
            && FoldLines(AsWritten, f, lines) == Ok(f.(lineTimeInternal := [5, 0]))
            && FoldLines(Corrected, f, lines) == Ok(f.(lineTimeInternal := [0, 5]))
  {
    var f := NewFunction("f", ["a = 1\n", "b = 2\n"], 7);
    var lines := [LineState(0, 0), LineState(5, 0)];
    assert f.lineTime == [0, 0] && f.lineTimeInternal == [0, 0];
    assert lines[..1] == [LineState(0, 0)];
    assert InternalSum(lines[..1]) == 0 && ExternalSum(lines[..1]) == 0;
    assert InternalSum(lines) == 5 && ExternalSum(lines) == 0;
    AsWrittenFold(f, lines);
    CorrectedFold(f, lines);
  }

  lemma AsWrittenFold(f: Function, lines: seq<LineState>)
    requires f.lineTime == [0, 0] && f.lineTimeInternal == [0, 0]
    requires |lines| == 2 && InternalSum(lines) == 5 && ExternalSum(lines) == 0
    ensures FoldLines(AsWritten, f, lines) == Ok(f.(lineTimeInternal := [5, 0]))
  {
    FoldLinesTotals(AsWritten, f, lines);
    FoldLinesFrozenIndex(f, lines);
    var w := FoldLines(AsWritten, f, lines).value;
    assert w.lineTime == [0, 0] && w.lineTimeInternal == [5, 0];
  }

  lemma CorrectedFold(f: Function, lines: seq<LineState>)
    requires f.lineTime == [0, 0] && f.lineTimeInternal == [0, 0]
    requires lines == [LineState(0, 0), LineState(5, 0)]
    ensures FoldLines(Corrected, f, lines) == Ok(f.(lineTimeInternal := [0, 5]))
  {
    FoldLinesTotals(Corrected, f, lines);
    FoldLinesPerIndex(f, lines);
    var c := FoldLines(Corrected, f, lines).value;
    assert c.lineTime[0] == 0 && c.lineTime[1] == 0;
    assert c.lineTimeInternal[0] == 0 && c.lineTimeInternal[1] == 5;
    assert c.lineTime == [0, 0] && c.lineTimeInternal == [0, 5];
  }

  // ------------------------------------------- top() on an empty stack

  /** A native call made where no frame is on the stack (profiling started
      inside the caller): as written, closing it reaches `top()` on an empty
      stack; corrected, the native callable still receives its 8 ns. */
  lemma NativeCallOnEmptyStack()
    ensures var h := Host(_ => Source([], 0), _ => "");
            var trace := [Event(TraceCCall, 1, 0, "sleep", 10, 12), Event(TraceCReturn, 1, 0, "", 20, 21)];
            && Run(AsWritten, h, Start(Init()), trace) == Err(UndefinedTop)
            && Run(Corrected, h, Start(Init()), trace).Ok?
            && "sleep" in Run(Corrected, h, Start(Init()), trace).value.cFunctions
            && Run(Corrected, h, Start(Init()), trace).value.cFunctions["sleep"].overhead == 8
  {
    var h := Host(_ => Source([], 0), _ => "");
    var e1 := Event(TraceCCall, 1, 0, "sleep", 10, 12);
    var e2 := Event(TraceCReturn, 1, 0, "", 20, 21);
    var trace := [e1, e2];
    var m1 := Step(AsWritten, h, Start(Init()), e1);
    assert m1 == Step(Corrected, h, Start(Init()), e1);
    assert m1.Ok? && m1.value.last == CCall && m1.value.lastCName == "sleep" && m1.value.lastStart == 12;
    assert m1.value.cFunctions == map["sleep" := BaseFunction("sleep", 0)];
    assert trace[1..] == [e2];
    assert Step(AsWritten, h, m1.value, e2) == Err(UndefinedTop);
    var c := Step(Corrected, h, m1.value, e2);
    assert c.Ok? && c.value.cFunctions == map["sleep" := BaseFunction("sleep", 8)];
    assert Run(Corrected, h, c.value, []) == Ok(c.value);
  }

  /** Corrected, no step ever reaches `top()` on an empty stack. */
  lemma CorrectedNeverUndefined(h: Host, m: Module, e: Event)
    ensures Step(Corrected, h, m, e) != Err(UndefinedTop)
  {
    var r := Finish(Corrected, m, e.code, e.entry);
    if m.last == Return && |m.stack| > 0 {
      var charged := m.(stack := WithTop(m.stack, AddInternal(Top(m.stack), Elapsed(m, e.entry))));
      assert PopFrame(Corrected, charged).Err? ==> PopFrame(Corrected, charged).fault != UndefinedTop;
    }
  }

  /** Corrected, no run ever reaches `top()` on an empty stack, whatever
      order the events arrive in. */
  lemma {:induction false} CorrectedRunNeverUndefined(h: Host, m: Module, trace: seq<Event>)
    ensures Run(Corrected, h, m, trace) != Err(UndefinedTop)
    decreases |trace|
  {
    if |trace| > 0 {
      CorrectedNeverUndefined(h, m, trace[0]);
      var s := Step(Corrected, h, m, trace[0]);
      if s.Ok? {
        CorrectedRunNeverUndefined(h, s.value, trace[1..]);
      }
    }
  }

  /** Corrected, a native call closed on an empty stack still credits the
      native callable with the whole interval, and touches nothing else. */
  lemma CorrectedNativeCallOnEmptyStack(m: Module, code: Code, entry: int)
    requires m.last == CCall && |m.stack| == 0 && m.lastCName in m.cFunctions
    ensures var r := Finish(Corrected, m, code, entry);
            && r.Ok?
            && r.value.(cFunctions := m.cFunctions) == m
            && r.value.cFunctions.Keys == m.cFunctions.Keys
            && r.value.cFunctions[m.lastCName].overhead == m.cFunctions[m.lastCName].overhead + Elapsed(m, entry)
  {
  }
}
