/** Small value types shared by every component model. */
module Wrappers {

  /** A value that may be absent: TypeScript's `T | null` and `T | undefined`. */
  datatype Option<T> = None | Some(value: T)

  /** A toast notification as a component raises it; only its kind and text are modelled. */
  datatype Toast = ErrorToast(message: string) | SuccessToast(message: string)

  /** The colour a status badge is drawn in. */
  datatype BadgeColor = Success | Warning | Error
}
