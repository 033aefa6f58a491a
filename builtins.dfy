/**
 * The values a getter handles and the primitives it relies on without
 * defining them: `Basic.isNumber` and `Basic.isInt`, Python's `int()`
 * and `float()` conversions, and `str()` of a float. Their code is not
 * part of this model, so they are given to every getter as a record of
 * total functions; `Sound` states the little that is known about them.
 */
module Builtins {

  /** A Python value passed to a getter: a string read from the file,
      or a literal default written by the caller. */
  datatype Value = Str(s: string) | IntV(i: int) | FloatV(f: real)

  datatype Builtins = Builtins(
    isNumber: Value -> bool,    // Basic.isNumber
    isInt: Value -> bool,       // Basic.isInt
    toInt: Value -> int,        // int(...)
    toFloat: Value -> real,     // float(...)
    showFloat: real -> string)  // str(...) of a float

  /** What any sane implementation of the primitives does on values that
      are already numbers: they are numbers, ints are ints, and converting
      a number to its own type gives it back. */
  ghost predicate Sound(b: Builtins) {
    && (forall i: int :: b.isNumber(IntV(i)) && b.isInt(IntV(i)) && b.toInt(IntV(i)) == i)
    && (forall x: real :: b.isNumber(FloatV(x)) && b.toFloat(FloatV(x)) == x)
    && (forall i: int :: b.toFloat(IntV(i)) == i as real)
  }
}
