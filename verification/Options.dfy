module Options {
  datatype Option<+T> = None | Some(value: T)
}

/** The verdict labels that the engine gives and the backend acts on. */
module Verdicts {
  datatype Label = Normal | Suspicious | Compromised | Inconclusive
}

/** str(n) of a number. */
module Numerals {
  function Digit(d: nat): (c: char)
    requires d < 10
    ensures '0' <= c <= '9' && c as int - '0' as int == d
  {
    '0' + d as char
  }

  function Decimal(n: nat): string {
    (if n < 10 then "" else Decimal(n / 10)) + [Digit(n % 10)]
  }
}
