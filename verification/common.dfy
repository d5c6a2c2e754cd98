/** Shared vocabulary of the profiler model: code identities, durations,
    `size_t` values and the outcome of an operation that may throw or hit
    undefined behaviour. */
module Common {

  /** One past the largest `size_t` value (a 64-bit platform). */
  const SizeBound: int := 0x1_0000_0000_0000_0000

  /** A `size_t`: line numbers and starting lines are stored in this width,
      so subtraction on them wraps around modulo `SizeBound`. */
  type Size = x: int | 0 <= x < SizeBound

  /** The identity of a compiled code object (its address). It is taken to
      be permanent within a session: the registries hold no reference to the
      code object, so address reuse after it is freed is not modelled. */
  type Code = nat

  /** `std::chrono::nanoseconds`, as an unbounded integer. */
  type Duration = int

  /** Why an operation could not complete. */
  datatype Fault =
    | UndefinedTop            // `std::stack::top()` on an empty stack
    | FrameLineOutOfRange     // `lines_.at(...)` inside `FrameState::current_line`
    | FunctionLineOutOfRange  // `line_time_.at(...)` / `line_time_internal_.at(...)`
    | UnknownFunction         // `functions_.at(...)` with an unregistered code object
    | UnknownCFunction        // `c_functions_.at(...)` with an unregistered name

  /** Either a value or the fault that stopped the computation; usable with `:-`. */
  datatype Result<+T> = Ok(value: T) | Err(fault: Fault) {

    predicate IsFailure() {
      Err?
    }

    function PropagateFailure<U>(): Result<U>
      requires Err?
    {
      Err(fault)
    }

    function Extract(): T
      requires Ok?
    {
      value
    }
  }
}
