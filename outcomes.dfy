/** Result shapes shared by the two composers: optional values and library calls that may raise. */
module Outcomes {

  datatype Option<+T> = None | Some(value: T)

  /** What a library call that may raise (OpenCV, moviepy) gives back: a value, or an exception's text. */
  datatype Load<+T> = Loaded(value: T) | Raised(message: string)
}
