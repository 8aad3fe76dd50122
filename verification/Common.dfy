/** Value types shared by the model of the trading core. */
module Common {
  /** Nanoseconds in a millisecond. */
  const MS := 1_000_000

  datatype Option<+T> = None | Some(value: T) {
    function GetOr(default: T): T {
      if Some? then value else default
    }
  }

  datatype Result<+T> = Ok(value: T) | Err(message: string)

  datatype Side = Long | Short

  function Abs(x: real): real {
    if x < 0.0 then -x else x
  }

  function Min(x: real, y: real): real {
    if x <= y then x else y
  }

  function Max(x: real, y: real): real {
    if x >= y then x else y
  }
}
