/** Per-invocation accounting: `LineState` (self/child time of one source
    line) and `FrameState` (one activation of a function on the stack). */
module Frames {
  import opened Common

  /** Self time (`internal`) and child time (`external`) of one line. */
  datatype LineState = LineState(internal: Duration, external: Duration)

  /** One activation: the code object it runs, the first source line of the
      function, the last absolute line reported for it (0 before any line
      event), one `LineState` per retrieved source line, and the overhead
      (`internal`) not attributable to a line. */
  datatype FrameState = FrameState(
    key: Code,
    startingLine: Size,
    currentLine: Size,
    lines: seq<LineState>,
    internal: Duration)

  /** A frame as the constructor leaves it: no current line, zeroed buckets. */
  function NewFrame(code: Code, nLines: nat, startingLine: Size): (f: FrameState)
    ensures f.key == code && f.startingLine == startingLine
    ensures f.currentLine == 0 && f.internal == 0
    ensures |f.lines| == nLines
    ensures forall i :: 0 <= i < nLines ==> f.lines[i] == LineState(0, 0)
    ensures TotalTime(f) == 0
  {
    var f := FrameState(code, startingLine, 0, seq(nLines, _ => LineState(0, 0)), 0);
    ZeroSums(f.lines);
    f
  }

  /** Sum of the self buckets. */
  function InternalSum(lines: seq<LineState>): Duration
    decreases |lines|
  {
    if |lines| == 0 then 0
    else InternalSum(lines[..|lines| - 1]) + lines[|lines| - 1].internal
  }

  /** Sum of the child buckets. */
  function ExternalSum(lines: seq<LineState>): Duration
    decreases |lines|
  {
    if |lines| == 0 then 0
    else ExternalSum(lines[..|lines| - 1]) + lines[|lines| - 1].external
  }

  /** `FrameState::total_time`: self plus child time over the lines; the
      frame's own overhead is not part of it. */
  function TotalTime(f: FrameState): Duration
  {
    InternalSum(f.lines) + ExternalSum(f.lines)
  }

  lemma {:induction false} ZeroSums(lines: seq<LineState>)
    requires forall i :: 0 <= i < |lines| ==> lines[i] == LineState(0, 0)
    ensures InternalSum(lines) == 0 && ExternalSum(lines) == 0
    decreases |lines|
  {
    if |lines| > 0 {
      ZeroSums(lines[..|lines| - 1]);
    }
  }

  /** The loop of `FrameState::total_time`, adding both buckets of each line
      in order. */
  method ComputeTotalTime(f: FrameState) returns (result: Duration)
    ensures result == InternalSum(f.lines) + ExternalSum(f.lines)
  {
    result := 0;
    var i := 0;
    while i < |f.lines|
      invariant 0 <= i <= |f.lines|
      invariant result == InternalSum(f.lines[..i]) + ExternalSum(f.lines[..i])
    {
      assert f.lines[..i + 1][..i] == f.lines[..i];
      result := result + f.lines[i].internal;
      result := result + f.lines[i].external;
      i := i + 1;
    }
    assert f.lines[..i] == f.lines;
  }

  /** `FrameState::current_line`: the index `current_line_ - starting_line_ - 1`
      computed in `size_t`, checked by `.at`. The `- 1` matches source
      retrieval dropping the function's first line. */
  function CurrentLineIndex(f: FrameState): (r: Result<nat>)
    ensures r.Err? ==> r.fault == FrameLineOutOfRange
    ensures r.Ok? ==> r.value < |f.lines|
    ensures r.Ok? ==> (f.startingLine + 1 + r.value) % SizeBound == f.currentLine
    ensures f.startingLine < f.currentLine <= f.startingLine + |f.lines| ==>
              r == Ok(f.currentLine - f.startingLine - 1)
    ensures f.startingLine + |f.lines| < SizeBound ==>
              (r.Ok? <==> f.startingLine < f.currentLine <= f.startingLine + |f.lines|)
  {
    var index := (f.currentLine - f.startingLine - 1) % SizeBound;
    if index < |f.lines| then Ok(index) else Err(FrameLineOutOfRange)
  }

  /** `FrameState::set_current_line`. */
  function SetCurrentLine(f: FrameState, line: Size): (r: FrameState)
    ensures r.currentLine == line
    ensures r.(currentLine := f.currentLine) == f
    ensures TotalTime(r) == TotalTime(f)
  {
    f.(currentLine := line)
  }

  /** `FrameState::add_internal`: the frame's overhead, outside every line. */
  function AddInternal(f: FrameState, d: Duration): (r: FrameState)
    ensures r.internal == f.internal + d
    ensures r.(internal := f.internal) == f
    ensures TotalTime(r) == TotalTime(f)
  {
    f.(internal := f.internal + d)
  }

  lemma {:induction false} UpdateLineSums(lines: seq<LineState>, i: nat, l: LineState)
    requires i < |lines|
    ensures InternalSum(lines[i := l]) == InternalSum(lines) - lines[i].internal + l.internal
    ensures ExternalSum(lines[i := l]) == ExternalSum(lines) - lines[i].external + l.external
    decreases |lines|
  {
    var n := |lines| - 1;
    if i < n {
      assert lines[i := l][..n] == lines[..n][i := l];
      UpdateLineSums(lines[..n], i, l);
    } else {
      assert lines[i := l][..n] == lines[..n];
    }
  }

  /** `current_line().add_internal(d)`: self time for the current line; fails
      exactly when the current line is out of range. */
  function AddCurrentInternal(f: FrameState, d: Duration): (r: Result<FrameState>)
    ensures r.Ok? <==> CurrentLineIndex(f).Ok?
    ensures r.Err? ==> r.fault == FrameLineOutOfRange
    ensures r.Ok? ==>
              var i := CurrentLineIndex(f).value;
              && r.value.(lines := f.lines) == f
              && |r.value.lines| == |f.lines|
              && r.value.lines[i] == LineState(f.lines[i].internal + d, f.lines[i].external)
              && (forall j :: 0 <= j < |f.lines| && j != i ==> r.value.lines[j] == f.lines[j])
    ensures r.Ok? ==> InternalSum(r.value.lines) == InternalSum(f.lines) + d
    ensures r.Ok? ==> ExternalSum(r.value.lines) == ExternalSum(f.lines)
    ensures r.Ok? ==> TotalTime(r.value) == TotalTime(f) + d
  {
    var i :- CurrentLineIndex(f);
    var l := LineState(f.lines[i].internal + d, f.lines[i].external);
    UpdateLineSums(f.lines, i, l);
    Ok(f.(lines := f.lines[i := l]))
  }

  /** `current_line().add_external(d)`: child time for the current line; fails
      exactly when the current line is out of range. */
  function AddCurrentExternal(f: FrameState, d: Duration): (r: Result<FrameState>)
    ensures r.Ok? <==> CurrentLineIndex(f).Ok?
    ensures r.Err? ==> r.fault == FrameLineOutOfRange
    ensures r.Ok? ==>
              var i := CurrentLineIndex(f).value;
              && r.value.(lines := f.lines) == f
              && |r.value.lines| == |f.lines|
              && r.value.lines[i] == LineState(f.lines[i].internal, f.lines[i].external + d)
              && (forall j :: 0 <= j < |f.lines| && j != i ==> r.value.lines[j] == f.lines[j])
    ensures r.Ok? ==> InternalSum(r.value.lines) == InternalSum(f.lines)
    ensures r.Ok? ==> ExternalSum(r.value.lines) == ExternalSum(f.lines) + d
    ensures r.Ok? ==> TotalTime(r.value) == TotalTime(f) + d
  {
    var i :- CurrentLineIndex(f);
    var l := LineState(f.lines[i].internal, f.lines[i].external + d);
    UpdateLineSums(f.lines, i, l);
    Ok(f.(lines := f.lines[i := l]))
  }

  /** With line numbers far below the `size_t` limit, a frame that has seen
      no line event yet has no current line. */
  lemma NoLineBeforeFirstLineEvent(f: FrameState)
    requires f.currentLine == 0
    requires f.startingLine + |f.lines| < SizeBound
    ensures CurrentLineIndex(f) == Err(FrameLineOutOfRange)
  {
  }

  /** A line reported on the function's first source line (the line that
      retrieval dropped) has no bucket either. */
  lemma FirstSourceLineHasNoBucket(f: FrameState)
    requires f.currentLine == f.startingLine
    requires |f.lines| < SizeBound
    ensures CurrentLineIndex(f) == Err(FrameLineOutOfRange)
  {
    assert (f.currentLine - f.startingLine - 1) % SizeBound == SizeBound - 1;
  }
}
