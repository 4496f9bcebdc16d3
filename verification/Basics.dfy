/** The vocabulary every module shares. */
module Basics {
  datatype Option<+T> = None | Some(value: T)

  /** GeasStatus, the statuses the modelled operations answer. */
  datatype Status =
    | OK
    | ErrState
    | ErrType
    | ErrVersion
    | ErrUnbound
    | ErrName
    | ErrOom
    | ErrStore

  datatype Result<+T> = Ok(value: T) | Err(status: Status)
}
