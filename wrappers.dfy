/** Failure-carrying results shared by the robot and driver modules. */
module Wrappers {

  datatype Option<+T> = None | Some(value: T)

  datatype Result<+R, +E> = Success(value: R) | Failure(error: E)

  /** The run-stopping errors of the program: each one ends in `log.Fatal`
      in the driver, or is returned to it by `Instruct`. */
  datatype Error =
    | InvalidInstruction   // an instruction other than "F", "L" or "R"
    | InvalidOrientation   // a robot whose orientation is not "N", "E", "S" or "W"
    | InvalidLimits        // grid limits outside 0..50
}
