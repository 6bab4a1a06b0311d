/** How an awaited call of the host can end. */
module AwaitedCalls {

  /** How an awaited call ends: normally, with an exception before or after its effect, or
      never, because the process dies before or after it. */
  datatype Fault = Fine | FailBefore | FailAfter | CrashBefore | CrashAfter

  datatype Outcome = Done | Threw | Crashed

  predicate Happens(f: Fault) {
    f.Fine? || f.FailAfter? || f.CrashAfter?
  }

  function Verdict(f: Fault): Outcome {
    match f
    case Fine => Done
    case FailBefore => Threw
    case FailAfter => Threw
    case CrashBefore => Crashed
    case CrashAfter => Crashed
  }
}
