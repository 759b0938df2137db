// Primitive types and tolerances shared by every module.
// Floats are modelled as `real`: rounding is not the point of any property here.
module Common {
  // Tolerances of core/models/common.py.
  const MONEY_EPSILON: real := 0.000001
  const QTY_EPSILON: real := 0.000000001
  const FLAT_EPSILON: real := 0.000000000001

  datatype Option<+T> = None | Some(value: T)

  datatype Side = Buy | Sell {
    // A quantity times the side's sign: +1 for a buy, -1 for a sell.
    function Signed(quantity: real): (r: real) {
      if Buy? then quantity else -quantity
    }
  }

  function Abs(x: real): (r: real) {
    if x < 0.0 then -x else x
  }

  function Min(x: real, y: real): (r: real) {
    if x <= y then x else y
  }

  function Max(x: real, y: real): (r: real) {
    if x >= y then x else y
  }

  // A product, named so that proofs can leave it unexpanded.
  function Times(x: real, y: real): (r: real) {
    x * y
  }

  // The keys of the position books: "venue:symbol".
  function KeyOf(venue: string, symbol: string): (key: string) {
    venue + ":" + symbol
  }
}
