/** The registries' records: `BaseFunction` (a native callable, total time
    only) and `Function` (a Python function, with per-line totals folded
    from every finished activation). */
module Functions {
  import opened Common
  import opened Sums

  /** A native callable: its display name and accumulated time. */
  datatype BaseFunction = BaseFunction(name: string, overhead: Duration)

  /** A freshly registered native callable. */
  function NewBaseFunction(name: string): (b: BaseFunction)
    ensures b.name == name && b.overhead == 0
  {
    BaseFunction(name, 0)
  }

  /** `BaseFunction::add_elapsed_internal`: accumulation only. */
  function AddOverhead(b: BaseFunction, d: Duration): (r: BaseFunction)
    ensures r.name == b.name
    ensures r.overhead == b.overhead + d
  {
    b.(overhead := b.overhead + d)
  }

  /** A Python function: the `BaseFunction` part (name, call/return
      overhead), its code object, its retrieved source lines, and per-line
      child (`lineTime`) and self (`lineTimeInternal`) totals. */
  datatype Function = Function(
    base: BaseFunction,
    code: Code,
    lines: seq<string>,
    lineTime: seq<Duration>,
    lineTimeInternal: seq<Duration>)
  {
    /** Both accumulators run parallel to the source lines. */
    predicate Valid() {
      |lineTime| == |lines| && |lineTimeInternal| == |lines|
    }
  }

  /** The `Function` constructor: both accumulators sized to the source lines
      and zeroed. */
  function NewFunction(name: string, lines: seq<string>, code: Code): (f: Function)
    ensures f.Valid()
    ensures f.base == NewBaseFunction(name) && f.code == code && f.lines == lines
    ensures forall i :: 0 <= i < |lines| ==> f.lineTime[i] == 0 && f.lineTimeInternal[i] == 0
    ensures Sum(f.lineTime) == 0 && Sum(f.lineTimeInternal) == 0
  {
    var zeros := seq(|lines|, _ => 0);
    SumOfZeros(zeros);
    Function(NewBaseFunction(name), code, lines, zeros, zeros)
  }

  /** The inherited `add_elapsed_internal(time)`: the function's overhead. */
  function AddFunctionOverhead(f: Function, d: Duration): (r: Function)
    ensures r.base.overhead == f.base.overhead + d
    ensures r.(base := f.base) == f && r.base.name == f.base.name
  {
    f.(base := AddOverhead(f.base, d))
  }

  /** `Function::add_elapsed`: child time for one line, checked by `.at`. */
  function AddElapsed(f: Function, i: nat, d: Duration): (r: Result<Function>)
    ensures r.Ok? <==> i < |f.lineTime|
    ensures r.Err? ==> r.fault == FunctionLineOutOfRange
    ensures r.Ok? ==>
              && r.value.(lineTime := f.lineTime) == f
              && |r.value.lineTime| == |f.lineTime|
              && r.value.lineTime[i] == f.lineTime[i] + d
              && (forall j :: 0 <= j < |f.lineTime| && j != i ==> r.value.lineTime[j] == f.lineTime[j])
              && Sum(r.value.lineTime) == Sum(f.lineTime) + d
  {
    if i < |f.lineTime| then
      SumUpdate(f.lineTime, i, f.lineTime[i] + d);
      Ok(f.(lineTime := f.lineTime[i := f.lineTime[i] + d]))
    else
      Err(FunctionLineOutOfRange)
  }

  /** `Function::add_elapsed_internal(line, time)`: self time for one line,
      checked by `.at`. */
  function AddElapsedInternal(f: Function, i: nat, d: Duration): (r: Result<Function>)
    ensures r.Ok? <==> i < |f.lineTimeInternal|
    ensures r.Err? ==> r.fault == FunctionLineOutOfRange
    ensures r.Ok? ==>
              && r.value.(lineTimeInternal := f.lineTimeInternal) == f
              && |r.value.lineTimeInternal| == |f.lineTimeInternal|
              && r.value.lineTimeInternal[i] == f.lineTimeInternal[i] + d
              && (forall j :: 0 <= j < |f.lineTimeInternal| && j != i ==>
                    r.value.lineTimeInternal[j] == f.lineTimeInternal[j])
              && Sum(r.value.lineTimeInternal) == Sum(f.lineTimeInternal) + d
  {
    if i < |f.lineTimeInternal| then
      SumUpdate(f.lineTimeInternal, i, f.lineTimeInternal[i] + d);
      Ok(f.(lineTimeInternal := f.lineTimeInternal[i := f.lineTimeInternal[i] + d]))
    else
      Err(FunctionLineOutOfRange)
  }
}
