/** A worked session: `f` runs `pass`, a native call `g()` taking one
    second, and `pass`, then returns; every other interval outside the
    engine is 10 ns. States are written out after every event. */
module Scenario {
  import opened Common
  import opened Frames
  import opened Functions
  import opened Profiler
  import opened Findings

  const F: Code := 7
  const Second: int := 1_000_000_000

  /** `f` is defined on line 10; its body is lines 11 to 13. */
  function ScenarioHost(): Host {
    Host(_ => Source(["def f():\n", "  pass\n", "  g()\n", "  pass\n"], 10), _ => "f")
  }

  const Body: seq<string> := ["  pass\n", "  g()\n", "  pass\n"]

  const E1: Event := Event(TraceCall, F, 10, "", 100, 110)
  const E2: Event := Event(TraceLine, F, 11, "", 120, 130)
  const E3: Event := Event(TraceLine, F, 12, "", 140, 150)
  const E4: Event := Event(TraceCCall, F, 12, "g", 160, 170)
  const E5: Event := Event(TraceCReturn, F, 12, "", Second + 170, Second + 180)
  const E6: Event := Event(TraceLine, F, 13, "", Second + 190, Second + 200)
  const E7: Event := Event(TraceReturn, F, 13, "", Second + 210, Second + 220)
  const E8: Event := Event(TraceCCall, 0, 0, "stop", Second + 230, Second + 240)

  function ScenarioTrace(): seq<Event> {
    [E1, E2, E3, E4, E5, E6, E7, E8]
  }

  function FnF(overhead: int, lineTime: seq<int>, lineTimeInternal: seq<int>): Function {
    Function(BaseFunction("f", overhead), F, Body, lineTime, lineTimeInternal)
  }

  function FrameF(current: Size, lines: seq<LineState>, internal: int): FrameState {
    FrameState(F, 10, current, lines, internal)
  }

  const Z: LineState := LineState(0, 0)

  const S0: Module := Module(Origin, [], map[], map[], "", 0)
  const S1: Module := Module(Call, [FrameF(0, [Z, Z, Z], 0)], map[F := FnF(0, [0, 0, 0], [0, 0, 0])], map[], "", 110)
  const S2: Module := Module(Line, [FrameF(11, [Z, Z, Z], 0)], map[F := FnF(10, [0, 0, 0], [0, 0, 0])], map[], "", 130)
  const S3: Module := Module(Line, [FrameF(12, [LineState(10, 0), Z, Z], 0)], S2.functions, map[], "", 150)
  const S4: Module :=
    Module(CCall, [FrameF(12, [LineState(10, 0), LineState(10, 0), Z], 0)], S2.functions,
           map["g" := BaseFunction("g", 0)], "g", 170)
  const S5: Module :=
    Module(CReturn, [FrameF(12, [LineState(10, 0), LineState(10, Second), Z], 0)], S2.functions,
           map["g" := BaseFunction("g", Second)], "g", Second + 180)
  const S6: Module :=
    Module(Line, [FrameF(13, [LineState(10, 0), LineState(10, Second), Z], 10)], S2.functions,
           S5.cFunctions, "g", Second + 200)
  const S7: Module :=
    Module(Return, [FrameF(13, [LineState(10, 0), LineState(10, Second), LineState(10, 0)], 10)], S2.functions,
           S5.cFunctions, "g", Second + 220)
  const NativesAfter: map<string, BaseFunction> :=
    map["g" := BaseFunction("g", Second), "stop" := BaseFunction("stop", 0)]
  const S8Corrected: Module :=
    Module(CCall, [], map[F := FnF(30, [0, Second, 0], [10, 10, 10])], NativesAfter, "stop", Second + 240)
  const S8AsWritten: Module :=
    Module(CCall, [], map[F := FnF(30, [Second, 0, 0], [30, 0, 0])], NativesAfter, "stop", Second + 240)

  lemma Step1(v: Variant)
    ensures Step(v, ScenarioHost(), S0, E1) == Ok(S1)
  {
    var f := NewFrame(F, 3, 10);
    assert f.lines == [Z, Z, Z];
    assert NewFunction("f", Body, F) == FnF(0, [0, 0, 0], [0, 0, 0]);
    assert GetLines(ScenarioHost().source(F)) == Body;
  }

  lemma Step2(v: Variant)
    ensures Step(v, ScenarioHost(), S1, E2) == Ok(S2)
  {
    var c := Finish(v, S1, E2.code, E2.entry);
    assert Elapsed(S1, E2.entry) == 10;
    assert c == FinishCall(S1, F, 10);
    assert c.Ok?;
    assert c.value.functions == S2.functions;
    assert c.value == S2.(last := Call, lastStart := 110, stack := S1.stack);
    var d := Dispatch(ScenarioHost(), c.value, E2);
    assert d == ProfileLine(c.value, 11);
    assert WithTop(S1.stack, SetCurrentLine(S1.stack[0], 11)) == S2.stack;
  }

  lemma Three<T>(s: seq<T>, a: T, b: T, c: T)
    requires |s| == 3 && s[0] == a && s[1] == b && s[2] == c
    ensures s == [a, b, c]
  {
  }

  lemma Step3(v: Variant)
    ensures Step(v, ScenarioHost(), S2, E3) == Ok(S3)
  {
    assert CurrentLineIndex(S2.stack[0]) == Ok(0);
    var top := AddCurrentInternal(S2.stack[0], 10);
    Three(top.value.lines, LineState(10, 0), Z, Z);
    var c := Finish(v, S2, E3.code, E3.entry);
    assert c == FinishLine(S2, 10);
    assert c == Ok(S2.(stack := [top.value]));
    assert WithTop(c.value.stack, SetCurrentLine(top.value, 12)) == S3.stack;
  }

  lemma Step4(v: Variant)
    ensures Step(v, ScenarioHost(), S3, E4) == Ok(S4)
  {
    assert CurrentLineIndex(S3.stack[0]) == Ok(1);
    var top := AddCurrentInternal(S3.stack[0], 10);
    Three(top.value.lines, LineState(10, 0), LineState(10, 0), Z);
    assert top == Ok(S4.stack[0]);
    var c := Finish(v, S3, E4.code, E4.entry);
    assert c == FinishLine(S3, 10);
    assert c == Ok(S3.(stack := [top.value]));
    assert Dispatch(ScenarioHost(), c.value, E4) == ProfileCCall(c.value, "g");
  }

  /** Closing the native call: `g` and line 12's child bucket both get the second. */
  lemma CloseNativeCall(v: Variant)
    ensures FinishCCall(v, S4, Second) == Ok(S4.(stack := S5.stack, cFunctions := S5.cFunctions))
  {
    assert CurrentLineIndex(S4.stack[0]) == Ok(1);
    var top := AddCurrentExternal(S4.stack[0], Second);
    Three(top.value.lines, LineState(10, 0), LineState(10, Second), Z);
    assert top == Ok(S5.stack[0]);
    assert S4.lastCName in S4.cFunctions;
    assert S4.cFunctions["g" := AddOverhead(S4.cFunctions["g"], Second)] == S5.cFunctions;
    assert WithTop(S4.stack, top.value) == S5.stack;
  }

  lemma Step5(v: Variant)
    ensures Step(v, ScenarioHost(), S4, E5) == Ok(S5)
  {
    CloseNativeCall(v);
    assert Elapsed(S4, E5.entry) == Second;
    var c := Finish(v, S4, E5.code, E5.entry);
    assert c == FinishCCall(v, S4, Second);
  }

  lemma Step6(v: Variant)
    ensures Step(v, ScenarioHost(), S5, E6) == Ok(S6)
  {
  }

  lemma Step7(v: Variant)
    ensures Step(v, ScenarioHost(), S6, E7) == Ok(S7)
  {
    assert CurrentLineIndex(S6.stack[0]) == Ok(2);
    var top := AddCurrentInternal(S6.stack[0], 10);
    Three(top.value.lines, LineState(10, 0), LineState(10, Second), LineState(10, 0));
    assert top == Ok(S7.stack[0]);
    var c := Finish(v, S6, E7.code, E7.entry);
    assert c == FinishLine(S6, 10);
    assert c == Ok(S6.(stack := [top.value]));
  }

  /** `f`'s only frame, charged with the return interval. */
  const Returning: Module := S7.(stack := [S7.stack[0].(internal := 20)])

  lemma PopReturning(v: Variant, folded: Function)
    requires FoldLines(v, FnF(30, [0, 0, 0], [0, 0, 0]), S7.stack[0].lines) == Ok(folded)
    ensures PopFrame(v, Returning) == Ok(Returning.(functions := map[F := folded], stack := []))
  {
    var frame := Top(Returning.stack);
    assert frame.key == F && frame.internal == 20 && frame.lines == S7.stack[0].lines;
    assert AddFunctionOverhead(Returning.functions[F], 20) == FnF(30, [0, 0, 0], [0, 0, 0]);
    assert Returning.stack[..0] == [];
    assert Returning.functions[F := folded] == map[F := folded];
  }

  /** The close-out of the return event, common to both variants up to the fold. */
  lemma Step8(v: Variant, folded: Function)
    requires FoldLines(v, FnF(30, [0, 0, 0], [0, 0, 0]), S7.stack[0].lines) == Ok(folded)
    ensures Step(v, ScenarioHost(), S7, E8)
            == Ok(Module(CCall, [], map[F := folded], NativesAfter, "stop", Second + 240))
  {
    assert Elapsed(S7, E8.entry) == 10;
    assert WithTop(S7.stack, AddInternal(S7.stack[0], 10)) == Returning.stack;
    PopReturning(v, folded);
    var c := Finish(v, S7, E8.code, E8.entry);
    assert c == FinishReturn(v, S7, 10);
    assert c == PopFrame(v, Returning);
  }

  lemma Step8Corrected()
    ensures Step(Corrected, ScenarioHost(), S7, E8) == Ok(S8Corrected)
  {
    var f := FnF(30, [0, 0, 0], [0, 0, 0]);
    var lines := S7.stack[0].lines;
    FoldLinesPerIndex(f, lines);
    FoldLinesTotals(Corrected, f, lines);
    var r := FoldLines(Corrected, f, lines).value;
    Three(r.lineTime, 0, Second, 0);
    Three(r.lineTimeInternal, 10, 10, 10);
    Step8(Corrected, r);
  }

  lemma Step8AsWritten()
    ensures Step(AsWritten, ScenarioHost(), S7, E8) == Ok(S8AsWritten)
  {
    var f := FnF(30, [0, 0, 0], [0, 0, 0]);
    var lines := S7.stack[0].lines;
    assert lines[..2] == [LineState(10, 0), LineState(10, Second)];
    assert lines[..2][..1] == [LineState(10, 0)];
    assert InternalSum(lines[..1]) == 10 && ExternalSum(lines[..1]) == 0;
    assert InternalSum(lines[..2]) == 20 && ExternalSum(lines[..2]) == Second;
    assert InternalSum(lines) == 30 && ExternalSum(lines) == Second;
    FoldLinesFrozenIndex(f, lines);
    FoldLinesTotals(AsWritten, f, lines);
    var r := FoldLines(AsWritten, f, lines).value;
    assert r.lineTime == [Second, 0, 0] && r.lineTimeInternal == [30, 0, 0];
    Step8(AsWritten, r);
  }

  lemma RunFirst(v: Variant, h: Host, m: Module, trace: seq<Event>, m1: Module)
    requires |trace| > 0 && Step(v, h, m, trace[0]) == Ok(m1)
    ensures Run(v, h, m, trace) == Run(v, h, m1, trace[1..])
  {
  }

  lemma Event1(v: Variant)
    ensures Run(v, ScenarioHost(), S0, [E1, E2, E3, E4, E5, E6, E7, E8]) == Run(v, ScenarioHost(), S1, [E2, E3, E4, E5, E6, E7, E8])
  {
    Step1(v);
    RunFirst(v, ScenarioHost(), S0, [E1, E2, E3, E4, E5, E6, E7, E8], S1);
    assert [E1, E2, E3, E4, E5, E6, E7, E8][1..] == [E2, E3, E4, E5, E6, E7, E8];
  }

  lemma Event2(v: Variant)
    ensures Run(v, ScenarioHost(), S1, [E2, E3, E4, E5, E6, E7, E8]) == Run(v, ScenarioHost(), S2, [E3, E4, E5, E6, E7, E8])
  {
    Step2(v);
    RunFirst(v, ScenarioHost(), S1, [E2, E3, E4, E5, E6, E7, E8], S2);
    assert [E2, E3, E4, E5, E6, E7, E8][1..] == [E3, E4, E5, E6, E7, E8];
  }

  lemma Event3(v: Variant)
    ensures Run(v, ScenarioHost(), S2, [E3, E4, E5, E6, E7, E8]) == Run(v, ScenarioHost(), S3, [E4, E5, E6, E7, E8])
  {
    Step3(v);
    RunFirst(v, ScenarioHost(), S2, [E3, E4, E5, E6, E7, E8], S3);
    assert [E3, E4, E5, E6, E7, E8][1..] == [E4, E5, E6, E7, E8];
  }

  lemma Event4(v: Variant)
    ensures Run(v, ScenarioHost(), S3, [E4, E5, E6, E7, E8]) == Run(v, ScenarioHost(), S4, [E5, E6, E7, E8])
  {
    Step4(v);
    RunFirst(v, ScenarioHost(), S3, [E4, E5, E6, E7, E8], S4);
    assert [E4, E5, E6, E7, E8][1..] == [E5, E6, E7, E8];
  }

  lemma Event5(v: Variant)
    ensures Run(v, ScenarioHost(), S4, [E5, E6, E7, E8]) == Run(v, ScenarioHost(), S5, [E6, E7, E8])
  {
    Step5(v);
    RunFirst(v, ScenarioHost(), S4, [E5, E6, E7, E8], S5);
    assert [E5, E6, E7, E8][1..] == [E6, E7, E8];
  }

  lemma Event6(v: Variant)
    ensures Run(v, ScenarioHost(), S5, [E6, E7, E8]) == Run(v, ScenarioHost(), S6, [E7, E8])
  {
    Step6(v);
    RunFirst(v, ScenarioHost(), S5, [E6, E7, E8], S6);
    assert [E6, E7, E8][1..] == [E7, E8];
  }

  lemma Event7(v: Variant)
    ensures Run(v, ScenarioHost(), S6, [E7, E8]) == Run(v, ScenarioHost(), S7, [E8])
  {
    Step7(v);
    RunFirst(v, ScenarioHost(), S6, [E7, E8], S7);
    assert [E7, E8][1..] == [E8];
  }

  /** The first seven events act the same under both variants. */
  lemma FirstSevenEvents(v: Variant)
    ensures Run(v, ScenarioHost(), S0, ScenarioTrace()) == Run(v, ScenarioHost(), S7, [E8])
  {
    Event1(v);
    Event2(v);
    Event3(v);
    Event4(v);
    Event5(v);
    Event6(v);
    Event7(v);
  }

  /** Corrected, the native call's second is `f`'s child time on its second
      body line and `g`'s total, each body line keeps its own 10 ns of self
      time, and `f`'s 30 ns of overhead are the intervals before its first
      line, after the native return and at its return. As written, all of
      `f`'s line time sits on its first body line. */
  lemma NativeCallScenario()
    ensures Run(Corrected, ScenarioHost(), Start(Init()), ScenarioTrace()) == Ok(S8Corrected)
    ensures Run(AsWritten, ScenarioHost(), Start(Init()), ScenarioTrace()) == Ok(S8AsWritten)
  {
    var h := ScenarioHost();
    assert Start(Init()) == S0;
    assert [E8][1..] == [];
    FirstSevenEvents(Corrected);
    Step8Corrected();
    RunFirst(Corrected, h, S7, [E8], S8Corrected);
    FirstSevenEvents(AsWritten);
    Step8AsWritten();
    RunFirst(AsWritten, h, S7, [E8], S8AsWritten);
  }
}
