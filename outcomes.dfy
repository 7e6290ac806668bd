/** The usual optional-value wrapper, used for dialog answers, parsed
    numbers and the open PDF document. */
module Outcomes {

  datatype Option<+T> = None | Some(value: T)

  function Min(a: int, b: int): int { if a <= b then a else b }

  function Max(a: int, b: int): int { if a >= b then a else b }
}
