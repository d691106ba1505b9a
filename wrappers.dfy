/** Small value wrappers shared by the other modules. */
module Wrappers {

  /** The outcome of parsing a piece of text as a number: `None` stands for
      JavaScript's NaN result of `parseInt`/`parseFloat`. */
  datatype Option<+T> = None | Some(value: T)

  /** A JavaScript state value of type `number | null`: `null`, the number
      NaN, or an ordinary number. */
  datatype NumberOrNull<+T> = Null | NaN | Num(value: T)
}
