/**
 * The collaborators of the builtin-function resolver, at their interface only:
 * values and their kinds, units, source locations, the evaluator's error
 * variants, and the number and unit libraries. Their internals are not part of
 * this model; each primitive operation the resolver calls is a field of `Env`.
 */
module ValueUnit {
  import opened Wrappers

  /** An exact decimal number (`BigDecimal`); its representation is not modelled. */
  type Decimal

  /** A floating-point number (`num::Float`); never inspected by the resolver. */
  type Float

  /** A physical unit with rational exponents; compared for equality by the resolver. */
  type Unit(==)

  /** A source location (`syntax::FC`): an opaque tag carried by errors. */
  type FC

  /** The shape of a value: a scalar number or an ordered vector of values. */
  datatype ValueKind = Number(n: Decimal) | Vector(elems: seq<Value>)

  /** A value together with its unit. */
  datatype Value = Value(kind: ValueKind, unit: Unit)

  /** The unit errors the resolver can raise. */
  datatype UnitError = UnitMismatch(fc: FC, found: Unit, expected: Unit)

  /** The evaluator's errors that the resolver can raise. */
  datatype EvalError =
    | CallArgumentMismatch(fc: FC, base: Value, numArgsExpected: nat, numArgsApplied: nat)
    | UnitFailure(unitError: UnitError)
    | ValueKindMismatch(fc: FC, value: Value)

  /** The floating-point functions of the number library that the builtins use. */
  datatype FloatOp =
    | Sin | Asin | Cos | Acos | Tan | Atan
    | Sqrt | Cbrt
    | Log10 | Log2 | Ln | Exp
    | Ceil | Floor | Round

  /**
   * The primitive operations the resolver borrows from other libraries:
   * `Unit::new()` (the dimensionless unit), `Unit::pow`, `BigDecimal::from`
   * (and `usize::into`), division of decimals, the two conversions between
   * decimals and floats, and the float functions themselves.
   */
  datatype Env = Env(
    dimensionless: Unit,
    pow: (Unit, Decimal) -> Unit,
    decimalFromInt: int -> Decimal,
    divide: (Decimal, Decimal) -> Decimal,
    floatFromDecimal: Decimal -> Float,
    decimalFromFloat: Float -> Decimal,
    applyFloat: (FloatOp, Float) -> Float)

  /**
   * `ValueKind::map_number`, which lives outside this model. ASSUMED
   * behaviour: it applies `f` to a `Number` and gives `None` for every other
   * kind.
   */
  function MapNumber(kind: ValueKind, f: Decimal -> Decimal): (r: Option<ValueKind>)
    ensures r.Some? <==> kind.Number?
    ensures kind.Number? ==> r.Some? && r.value == Number(f(kind.n))
  {
    match kind
    case Number(n) => Some(Number(f(n)))
    case Vector(_) => None
  }
}
