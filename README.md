# Builtin functions of natpl, modelled in Dafny

natpl is a units-aware numeric expression evaluator. This project models its
builtin-function resolver (`natpl/src/functions.rs`): the constant table
`BUILTIN_FUNCTION_NAMES` and the dispatcher
`builtin_func(fc, name, base, args)`. The dispatcher returns `None` when
`name` is not a builtin. Otherwise it returns the outcome of that builtin's
rule, `Some(Ok(value))` or `Some(Err(error))`.

Every builtin takes exactly one argument. The unary rules check three
things in a fixed order: the argument count, then the argument's unit, then
the argument's kind. `len` checks two: the argument count, then the
argument's kind. A rule then computes the number and the result unit:

- the unitless family (`sin`, `asin|arcsin`, `cos`, `acos|arccos`, `tan`,
  `atan|arctan`, `log|log10`, `log2`, `ln`, `exp`, `ceil`, `floor`,
  `round`) takes a dimensionless number and gives a dimensionless number;
- `sqrt` and `cbrt` take a number of any unit and raise the unit to 1/2 and
  1/3;
- `len` takes a vector of any unit and gives its length as a dimensionless
  number.

Files:

- `wrappers.dfy`: `Option` and `Result`.
- `value_unit.dfy`: the collaborators, at their interface only. Values,
  units, source locations (`FC`) and the evaluator's errors are modelled
  here. The primitive operations the resolver borrows are fields of an `Env`
  record: `Unit::new()`, `Unit::pow`, `BigDecimal::from`, decimal division,
  the two decimal/float conversions and the float functions. `Decimal`,
  `Float`, `Unit` and `FC` are opaque types.
- `functions.dfy`: the `functions!` invocation and its expansion. The
  invocation is data: `Arms`, one arm per line, each a group of alias names
  and its rule. The name table `BUILTIN_FUNCTION_NAMES` is the arms' names
  concatenated in declaration order (`NamesOf`). The `match` of
  `builtin_func` is a search for the first arm listing the name (`Lookup`).
  `argument_count_check!`, `unary!`, `unary_unitless_float!`,
  `conv_float_fn!`, the `len` block and `builtin_func` itself are functions.
  Lemmas show that no name is listed twice, that the table lists the names
  in declaration order and that the table and the dispatcher accept the same
  names.
- `builtin_spec.dfy`: a second description of the same behaviour, written
  family by family. Each family is a function from a name to its float
  function (and exponent, for `sqrt` and `cbrt`), and `Expected` states the
  outcome of a call without going through the arms. A lemma proves that
  `builtin_func` equals it on every input. Further lemmas state the order of
  the checks, the errors and their data, the result units and the alias
  equivalences.

Names used here that differ from the source:

- The source's `EvalError::UnitError(..)` variant is the constructor
  `UnitFailure`. The name `UnitError` is kept for the unit-error type.
- The exponent of `sqrt` and `cbrt` is the `BigDecimal` expression the code
  writes, `BigDecimal::from(1) / BigDecimal::from(2)` (or `/ 3`). The model
  keeps it opaque as `Quotient(env, 1, 2)` and `Quotient(env, 1, 3)`.
- The unit error always reports the dimensionless unit as `expected`, as the
  code does (`Unit::new()` at functions.rs:47). It does not report a
  rule-specific unit.

## Model

| member | source | states |
|---|---|---|
| `ValueUnit.MapNumber` | natpl/src/functions.rs:50-53 | assumed behaviour of `ValueKind::map_number`: `Some` exactly for a `Number`, holding the mapped number |
| `Functions.NamesOf` | natpl/src/functions.rs:80-84 | the `@names` expansion lists every name of every arm, and only names some arm lists |
| `Functions.Lookup` | natpl/src/functions.rs:71-74 | the `match` finds a rule exactly when some arm lists the name, and the rule it finds belongs to an arm listing the name; any other name reaches the `_` arm |
| `Functions.LookupFinds` | natpl/src/functions.rs:71-74 | a name resolves to the rule of the first arm that lists it |
| `Functions.NamesOfDistinct` | natpl/src/functions.rs:80-84 | arms whose names are pairwise distinct and disjoint expand to a name list without repetitions |
| `Functions.ArmsWellFormed` | natpl/src/functions.rs:87-135 | no arm of the invocation lists a name twice, and no two arms share a name |
| `Functions.ArmResolves` | natpl/src/functions.rs:71-74 | every name an arm lists resolves to that arm's rule, since no earlier arm lists it |
| `Functions.NameTableDistinct` | natpl/src/functions.rs:80-84 | `BUILTIN_FUNCTION_NAMES` holds no name twice |
| `Functions.NameTableMatchesDispatcher` | natpl/src/functions.rs:71-84 | a name is in `BUILTIN_FUNCTION_NAMES` iff the dispatcher's `match` has an arm for it |
| `Functions.ArmNameListed` | natpl/src/functions.rs:80-84 | every name of every arm is in `BUILTIN_FUNCTION_NAMES` |
| `Functions.ArmNamesAgree` | natpl/src/functions.rs:87-135 | two names on one line of the invocation give identical results on identical inputs |
| `Functions.NameTableInOrder` | natpl/src/functions.rs:87-135 | `BUILTIN_FUNCTION_NAMES` is exactly `sin, asin, arcsin, cos, acos, arccos, tan, atan, arctan, sqrt, cbrt, log, log10, log2, ln, exp, ceil, floor, round, len`: the invocation's names in declaration order, each alias right after the name it stands for |
| `Functions.ConvFloatThroughFloat` | natpl/src/functions.rs:18-25 | `conv_float_fn!` goes through a float: two decimals that convert to the same float give the same result |
| `Functions.UnitAccepts` | natpl/src/functions.rs:61-107 | the unit check accepts a unit iff the rule accepts any unit (the always-true check of `sqrt` and `cbrt`) or the unit is dimensionless (`unary_unitless_float!`) |
| `Functions.ResultUnit` | natpl/src/functions.rs:61-107 | the result unit is dimensionless for the unitless rules, and the argument's unit raised to p/q for `sqrt` and `cbrt` |
| `Functions.UnitlessFloatDimensionless` | natpl/src/functions.rs:61-68 | with one argument, a `unary_unitless_float!` rule fails the unit check exactly when the argument is not dimensionless, and every success it gives is dimensionless |
| `Functions.ApplyRule` | natpl/src/functions.rs:71-74 | every arm's body starts with the arity check (`CallArgumentMismatch(fc, base, 1, count)`); only a rule that demands a dimensionless argument raises a unit error; `len` succeeds only on a vector and a unary rule only on a number |
| `Functions.ArgumentCountCheck` | natpl/src/functions.rs:27-39 | the arguments pass through unchanged iff their count is the expected one; otherwise `CallArgumentMismatch` carrying the call location, the base value, the expected count and the actual count |
| `Functions.ApplyUnary` | natpl/src/functions.rs:41-59 | the error raised is decided by the first failing check: arity, then unit, then kind. A unit error carries the argument's location, its unit and the dimensionless unit. A kind error carries the argument's location and the argument. A success is the converted number with the rule's result unit |
| `Functions.ApplyLen` | natpl/src/functions.rs:119-134 | succeeds iff there is one argument and it is a vector; the result is the vector's length as a dimensionless number. With one non-vector argument, the error is `ValueKindMismatch` with that argument |
| `Functions.BuiltinFunc` | natpl/src/functions.rs:71-76 | `builtin_func` returns `Some` iff some arm lists the name, and `None` for every other name, never an error |
| `BuiltinSpec.ArmFollowsFamilies` | natpl/src/functions.rs:87-135 | each line of the invocation gives every one of its names the rule that the name's family prescribes |
| `BuiltinSpec.FamiliesListed` | natpl/src/functions.rs:87-135 | every name of every family is listed by some line of the invocation |
| `BuiltinSpec.RuleOfFamilies` | natpl/src/functions.rs:71-74 | the `match` resolves every name to the rule its family prescribes, and a name outside every family to nothing |
| `BuiltinSpec.BuiltinFuncMatchesExpected` | natpl/src/functions.rs:17-77 | for all inputs, `builtin_func` equals the family-by-family description of its outcome |
| `BuiltinSpec.NameTableIsFamilies` | natpl/src/functions.rs:80-84 | the name table is exactly the union of the unitless family, the power family and `len` |
| `BuiltinSpec.ArityCheckedFirst` | natpl/src/functions.rs:27-43 | for every name of every family and any argument count other than one, the result is `CallArgumentMismatch(fc, base, 1, count)`, whatever the arguments' units and kinds |
| `BuiltinSpec.UnitlessRejectsUnit` | natpl/src/functions.rs:46-48 | a unitless function given a non-dimensionless argument fails with `UnitMismatch(arg location, arg unit, dimensionless)`, even when the argument is a vector |
| `BuiltinSpec.UnaryKindCheck` | natpl/src/functions.rs:50-57 | once a unary rule's unit check has passed, a non-number argument gives `ValueKindMismatch(arg location, arg)`, and a number gives `Ok` with the rule's float function applied to it |
| `BuiltinSpec.UnitlessResultDimensionless` | natpl/src/functions.rs:61-68 | every success of a unitless function has the dimensionless unit |
| `BuiltinSpec.PowerRulesAcceptAnyUnit` | natpl/src/functions.rs:97-107 | `sqrt` and `cbrt` never fail the unit check; on a number of unit u they return u raised to 1/2 and to 1/3 |
| `BuiltinSpec.PowerRuleOutcome` | natpl/src/functions.rs:97-107 | a root rule, for any float function and exponent, never raises a unit error: wrong arity, then a non-number, fail as `unary!` says; a number of unit u gives the converted number with unit u raised to p/q |
| `BuiltinSpec.LenResult` | natpl/src/functions.rs:119-134 | `len` of one vector of length n is the dimensionless number n, whatever the vector's unit; any other single argument gives `ValueKindMismatch(arg location, arg)` |
| `BuiltinSpec.AliasesListed` | natpl/src/functions.rs:80-84 | both names of `asin`/`arcsin`, `acos`/`arccos`, `atan`/`arctan` and `log`/`log10` are in the name table |
| `BuiltinSpec.AliasesAgree` | natpl/src/functions.rs:87-109 | each alias pair gives identical results for identical location, base and arguments |

## Left out

- Floating-point mathematics: `sin`, `sqrt`, `log10` and the rest are one uninterpreted `Env.applyFloat`. The decimal/float conversions `float_from_decimal` and `decimal_from_float` are uninterpreted too. Nothing is proved about numeric accuracy. This includes `sin(0) = 0` and `sqrt` of 9 m² being 3 m.
- `BigDecimal`, its `From` conversions and its division are uninterpreted `Env` fields, so the exponents 1/2 and 1/3 are opaque decimals.
- The unit algebra: `Unit::new()`, unit equality and `Unit::pow` are used only through `Env.dimensionless`, the equality of the opaque type `Unit` and `Env.pow`. Their internals are not part of this model.
- `ValueKind::map_number` lives outside the modelled file. `MapNumber` encodes the assumption that it maps a `Number` and gives `None` for every other kind.
- The contents of `FC` locations: they are opaque tags.
- The rendering of `EvalError` for users.
- The `functions!` macro machinery itself. The model keeps the invocation as data (`Arms`) and reads off it the two things the macro generates: the name list and the `match`.
- Ownership and cloning (`base.clone()`, `arg.clone()`): values are immutable Dafny datatypes, so a clone is the value itself.
