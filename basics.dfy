/** Small building blocks shared by the other modules. */
module Basics {

  /** An optional value; `None` models a result the source leaves `undefined`. */
  datatype Option<+T> = None | Some(value: T)

  /** 1 for a criterion or toggle that holds, 0 otherwise. */
  function Indicator(b: bool): nat { if b then 1 else 0 }

  /** The number of passes of a loop `for (i = 0; i < n; i++)`. */
  function Max0(n: int): nat { if n < 0 then 0 else n }
}
