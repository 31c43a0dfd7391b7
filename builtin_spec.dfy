/**
 * The resolver's behaviour described family by family, independently of the
 * per-name `match`, and the properties of `builtin_func` that follow: the
 * order of the checks, the error each check raises and the data it carries,
 * the unit each rule produces, and that aliases are synonyms.
 */
module BuiltinSpec {
  import opened Wrappers
  import opened ValueUnit
  import opened Functions

  /** Trigonometric and inverse trigonometric functions, with the float function each applies. */
  function TrigOp(name: string): Option<FloatOp>
  {
    match name
    case "sin" => Some(Sin)
    case "asin" => Some(Asin)
    case "arcsin" => Some(Asin)
    case "cos" => Some(Cos)
    case "acos" => Some(Acos)
    case "arccos" => Some(Acos)
    case "tan" => Some(Tan)
    case "atan" => Some(Atan)
    case "arctan" => Some(Atan)
    case _ => None
  }

  /** Logarithmic and exponential functions. */
  function LogExpOp(name: string): Option<FloatOp>
  {
    match name
    case "log" => Some(Log10)
    case "log10" => Some(Log10)
    case "log2" => Some(Log2)
    case "ln" => Some(Ln)
    case "exp" => Some(Exp)
    case _ => None
  }

  /** Rounding functions. */
  function RoundingOp(name: string): Option<FloatOp>
  {
    match name
    case "ceil" => Some(Ceil)
    case "floor" => Some(Floor)
    case "round" => Some(Round)
    case _ => None
  }

  /** The functions that accept any unit and raise it to the power p/q: (float function, p, q). */
  function PowerOp(name: string): Option<(FloatOp, int, int)>
  {
    match name
    case "sqrt" => Some((Sqrt, 1, 2))
    case "cbrt" => Some((Cbrt, 1, 3))
    case _ => None
  }

  /** The alias groups: two names for one function. */
  const AliasPairs: seq<(string, string)> := [
    ("asin", "arcsin"), ("acos", "arccos"), ("atan", "arctan"), ("log", "log10")
  ]

  /**
   * The float function of a function that demands a dimensionless argument
   * and gives a dimensionless result, or None for any other name.
   */
  function UnitlessOp(name: string): Option<FloatOp>
  {
    if TrigOp(name).Some? then TrigOp(name)
    else if LogExpOp(name).Some? then LogExpOp(name)
    else RoundingOp(name)
  }

  predicate IsUnitless(name: string)
  {
    UnitlessOp(name).Some?
  }

  /** The names of the builtins, as the union of the families. */
  predicate IsBuiltin(name: string)
  {
    IsUnitless(name) || PowerOp(name).Some? || name == "len"
  }

  /**
   * What resolving `name` yields, stated family by family: not a builtin;
   * otherwise the arity error; otherwise, for `len`, the vector's length or
   * a kind error; for the others the unit error, then the kind error, then
   * the transformed number with the family's result unit.
   */
  ghost function Expected(env: Env, fc: FC, name: string, base: Value, args: seq<(FC, Value)>)
    : Option<Result<Value, EvalError>>
  {
    if !IsBuiltin(name) then None
    else if |args| != 1 then Some(Err(CallArgumentMismatch(fc, base, 1, |args|)))
    else
      var argFc, arg := args[0].0, args[0].1;
      if name == "len" then
        if arg.kind.Vector? then
          Some(Ok(Value(Number(env.decimalFromInt(|arg.kind.elems|)), env.dimensionless)))
        else
          Some(Err(ValueKindMismatch(argFc, arg)))
      else if IsUnitless(name) && arg.unit != env.dimensionless then
        Some(Err(UnitFailure(UnitMismatch(argFc, arg.unit, env.dimensionless))))
      else if !arg.kind.Number? then
        Some(Err(ValueKindMismatch(argFc, arg)))
      else if IsUnitless(name) then
        Some(Ok(Value(Number(ConvFloat(env, UnitlessOp(name).value)(arg.kind.n)), env.dimensionless)))
      else
        var power := PowerOp(name).value;
        Some(Ok(Value(Number(ConvFloat(env, power.0)(arg.kind.n)),
                      env.pow(arg.unit, Quotient(env, power.1, power.2)))))
  }

  /**
   * The rule the family description assigns to `name`, in the terms of the
   * expanded `match`; None for a name outside every family.
   */
  function FamilyRule(name: string): Option<Rule>
  {
    if IsUnitless(name) then Some(UnitlessFloat(UnitlessOp(name).value))
    else if PowerOp(name).Some? then
      var power := PowerOp(name).value;
      Some(Unary(AcceptAnyUnit, power.0, PowQuotient(power.1, power.2)))
    else if name == "len" then Some(Len)
    else None
  }

  // The arms against the families, a few arms at a time.
  lemma TrigArmsFollowFamilies(i: nat, name: string)
    requires i < 6
    ensures name in Arms[i].names ==> FamilyRule(name) == Some(Arms[i].rule)
  {
  }

  lemma PowerLogArmsFollowFamilies(i: nat, name: string)
    requires 6 <= i < 11
    ensures name in Arms[i].names ==> FamilyRule(name) == Some(Arms[i].rule)
  {
  }

  lemma RoundingLenArmsFollowFamilies(i: nat, name: string)
    requires 11 <= i < |Arms|
    ensures name in Arms[i].names ==> FamilyRule(name) == Some(Arms[i].rule)
  {
  }

  /** Every arm of the expanded `match` carries the rule its family assigns to each of its names. */
  lemma ArmFollowsFamilies(i: nat, name: string)
    requires i < |Arms|
    ensures name in Arms[i].names ==> FamilyRule(name) == Some(Arms[i].rule)
  {
    if i < 6 {
      TrigArmsFollowFamilies(i, name);
    } else if i < 11 {
      PowerLogArmsFollowFamilies(i, name);
    } else {
      RoundingLenArmsFollowFamilies(i, name);
    }
  }

  // Each family's names against the arms that list them, a family at a time.
  lemma TrigListed(name: string)
    requires TrigOp(name).Some?
    ensures exists i :: 0 <= i < |Arms| && name in Arms[i].names
  {
    if name == "sin" {
      assert name in Arms[0].names;
    } else if name == "asin" || name == "arcsin" {
      assert name in Arms[1].names;
    } else if name == "cos" {
      assert name in Arms[2].names;
    } else if name == "acos" || name == "arccos" {
      assert name in Arms[3].names;
    } else if name == "tan" {
      assert name in Arms[4].names;
    } else {
      assert name in Arms[5].names;
    }
  }

  lemma LogExpListed(name: string)
    requires LogExpOp(name).Some?
    ensures exists i :: 0 <= i < |Arms| && name in Arms[i].names
  {
    if name == "log" || name == "log10" {
      assert name in Arms[8].names;
    } else if name == "log2" {
      assert name in Arms[9].names;
    } else if name == "ln" {
      assert name in Arms[10].names;
    } else {
      assert name in Arms[11].names;
    }
  }

  lemma RoundingListed(name: string)
    requires RoundingOp(name).Some?
    ensures exists i :: 0 <= i < |Arms| && name in Arms[i].names
  {
    if name == "ceil" {
      assert name in Arms[12].names;
    } else if name == "floor" {
      assert name in Arms[13].names;
    } else {
      assert name in Arms[14].names;
    }
  }

  lemma PowerLenListed(name: string)
    requires PowerOp(name).Some? || name == "len"
    ensures exists i :: 0 <= i < |Arms| && name in Arms[i].names
  {
    if name == "sqrt" {
      assert name in Arms[6].names;
    } else if name == "cbrt" {
      assert name in Arms[7].names;
    } else {
      assert name in Arms[15].names;
    }
  }

  /** Every name of every family is listed by some arm of the expanded `match`. */
  lemma FamiliesListed(name: string)
    requires IsBuiltin(name)
    ensures exists i :: 0 <= i < |Arms| && name in Arms[i].names
  {
    if TrigOp(name).Some? {
      TrigListed(name);
    } else if LogExpOp(name).Some? {
      LogExpListed(name);
    } else if RoundingOp(name).Some? {
      RoundingListed(name);
    } else {
      PowerLenListed(name);
    }
  }

  /** The expanded `match` resolves every name to the rule its family assigns, and nothing else. */
  lemma {:induction false} RuleOfFamilies(name: string)
    ensures Lookup(Arms, name) == FamilyRule(name)
  {
    if IsBuiltin(name) {
      FamiliesListed(name);
      var i :| 0 <= i < |Arms| && name in Arms[i].names && Arms[i].rule == Lookup(Arms, name).value;
      ArmFollowsFamilies(i, name);
    } else {
      forall i | 0 <= i < |Arms|
        ensures name !in Arms[i].names
      {
        ArmFollowsFamilies(i, name);
      }
    }
  }

  // The equivalence below, one family at a time.
  lemma UnitlessMatchesExpected(env: Env, fc: FC, name: string, base: Value, args: seq<(FC, Value)>)
    requires IsUnitless(name)
    ensures BuiltinFunc(env, fc, name, base, args) == Expected(env, fc, name, base, args)
  {
    RuleOfFamilies(name);
    LenOnlyLen();
  }

  lemma PowerMatchesExpected(env: Env, fc: FC, name: string, base: Value, args: seq<(FC, Value)>)
    requires !IsUnitless(name) && PowerOp(name).Some?
    ensures BuiltinFunc(env, fc, name, base, args) == Expected(env, fc, name, base, args)
  {
    RuleOfFamilies(name);
    LenOnlyLen();
    assert name != "len";
    var power := PowerOp(name).value;
    var r := ApplyUnary(env, AcceptAnyUnit, power.0, PowQuotient(power.1, power.2), fc, base, args);
    assert BuiltinFunc(env, fc, name, base, args) == Some(r);
    PowerRuleOutcome(env, power.0, power.1, power.2, fc, base, args);
  }

  /** A root rule, for any operation and exponent: arity, then kind, then the result. */
  lemma PowerRuleOutcome(env: Env, op: FloatOp, p: int, q: int, fc: FC, base: Value, args: seq<(FC, Value)>)
    ensures ApplyUnary(env, AcceptAnyUnit, op, PowQuotient(p, q), fc, base, args) ==
      if |args| != 1 then Err(CallArgumentMismatch(fc, base, 1, |args|))
      else if !args[0].1.kind.Number? then Err(ValueKindMismatch(args[0].0, args[0].1))
      else Ok(Value(Number(ConvFloat(env, op)(args[0].1.kind.n)),
                    env.pow(args[0].1.unit, Quotient(env, p, q))))
  {
  }

  lemma LenMatchesExpected(env: Env, fc: FC, base: Value, args: seq<(FC, Value)>)
    ensures BuiltinFunc(env, fc, "len", base, args) == Expected(env, fc, "len", base, args)
  {
    RuleOfFamilies("len");
    LenOnlyLen();
  }

  /** `builtin_func` agrees with the family description on every input. */
  lemma {:induction false} BuiltinFuncMatchesExpected(
    env: Env, fc: FC, name: string, base: Value, args: seq<(FC, Value)>)
    ensures BuiltinFunc(env, fc, name, base, args) == Expected(env, fc, name, base, args)
  {
    if IsUnitless(name) {
      UnitlessMatchesExpected(env, fc, name, base, args);
    } else if PowerOp(name).Some? {
      PowerMatchesExpected(env, fc, name, base, args);
    } else if name == "len" {
      LenMatchesExpected(env, fc, base, args);
    } else {
      RuleOfFamilies(name);
    }
  }

  /** The name table is exactly the union of the families. */
  lemma NameTableIsFamilies(name: string)
    ensures name in BuiltinFunctionNames <==> IsBuiltin(name)
  {
    NameTableMatchesDispatcher(name);
    RuleOfFamilies(name);
  }

  /** Arity is checked first: any other count than one is a `CallArgumentMismatch`. */
  lemma ArityCheckedFirst(env: Env, fc: FC, name: string, base: Value, args: seq<(FC, Value)>)
    requires IsBuiltin(name)
    requires |args| != 1
    ensures BuiltinFunc(env, fc, name, base, args)
      == Some(Err(CallArgumentMismatch(fc, base, 1, |args|)))
  {
    BuiltinFuncMatchesExpected(env, fc, name, base, args);
  }

  /** `len` belongs to no other family. */
  lemma LenOnlyLen()
    ensures !IsUnitless("len") && PowerOp("len").None?
  {
  }

  /**
   * A unitless function rejects a unit other than the dimensionless one
   * before it looks at the kind, so a vector with a unit gets a unit error.
   */
  lemma UnitlessRejectsUnit(env: Env, fc: FC, name: string, base: Value, args: seq<(FC, Value)>)
    requires IsUnitless(name)
    requires |args| == 1 && args[0].1.unit != env.dimensionless
    ensures BuiltinFunc(env, fc, name, base, args)
      == Some(Err(UnitFailure(UnitMismatch(args[0].0, args[0].1.unit, env.dimensionless))))
  {
    LenOnlyLen();
    BuiltinFuncMatchesExpected(env, fc, name, base, args);
  }

  /**
   * Once a unary rule's unit check passes, a non-number is a kind error and a
   * number is transformed by the rule's float function.
   */
  lemma UnaryKindCheck(env: Env, fc: FC, name: string, base: Value, args: seq<(FC, Value)>)
    requires IsUnitless(name) || PowerOp(name).Some?
    requires |args| == 1
    requires IsUnitless(name) ==> args[0].1.unit == env.dimensionless
    ensures !args[0].1.kind.Number? ==>
      BuiltinFunc(env, fc, name, base, args) == Some(Err(ValueKindMismatch(args[0].0, args[0].1)))
    ensures args[0].1.kind.Number? ==>
      var op := if IsUnitless(name) then UnitlessOp(name).value else PowerOp(name).value.0;
      var r := BuiltinFunc(env, fc, name, base, args);
      r.Some? && r.value.Ok? && r.value.value.kind == Number(ConvFloat(env, op)(args[0].1.kind.n))
  {
    LenOnlyLen();
    BuiltinFuncMatchesExpected(env, fc, name, base, args);
  }

  /** Every success of a unitless function is dimensionless. */
  lemma UnitlessResultDimensionless(env: Env, fc: FC, name: string, base: Value, args: seq<(FC, Value)>)
    requires IsUnitless(name)
    ensures var r := BuiltinFunc(env, fc, name, base, args);
      r.Some? && r.value.Ok? ==> r.value.value.unit == env.dimensionless
  {
    LenOnlyLen();
    BuiltinFuncMatchesExpected(env, fc, name, base, args);
  }

  /**
   * `sqrt` and `cbrt` never raise a unit error, and on a number give the
   * argument's unit raised to 1/2 and 1/3.
   */
  lemma PowerRulesAcceptAnyUnit(env: Env, fc: FC, name: string, base: Value, args: seq<(FC, Value)>)
    requires PowerOp(name).Some?
    requires |args| == 1
    ensures var r := BuiltinFunc(env, fc, name, base, args);
      r.Some? && !(r.value.Err? && r.value.error.UnitFailure?)
    ensures name == "sqrt" && args[0].1.kind.Number? ==>
      BuiltinFunc(env, fc, name, base, args) == Some(Ok(Value(
        Number(ConvFloat(env, Sqrt)(args[0].1.kind.n)), env.pow(args[0].1.unit, Quotient(env, 1, 2)))))
    ensures name == "cbrt" && args[0].1.kind.Number? ==>
      BuiltinFunc(env, fc, name, base, args) == Some(Ok(Value(
        Number(ConvFloat(env, Cbrt)(args[0].1.kind.n)), env.pow(args[0].1.unit, Quotient(env, 1, 3)))))
  {
    LenOnlyLen();
    PowerNotUnitless(name);
    BuiltinFuncMatchesExpected(env, fc, name, base, args);
  }

  /** The power functions belong to no unitless family. */
  lemma PowerNotUnitless(name: string)
    requires PowerOp(name).Some?
    ensures !IsUnitless(name)
    ensures name == "sqrt" ==> PowerOp(name) == Some((Sqrt, 1, 2))
    ensures name == "cbrt" ==> PowerOp(name) == Some((Cbrt, 1, 3))
  {
  }

  /**
   * `len` of one vector of length n is the dimensionless number n whatever
   * the vector's unit; of anything else, a kind error.
   */
  lemma LenResult(env: Env, fc: FC, base: Value, args: seq<(FC, Value)>)
    requires |args| == 1
    ensures args[0].1.kind.Vector? ==>
      BuiltinFunc(env, fc, "len", base, args)
        == Some(Ok(Value(Number(env.decimalFromInt(|args[0].1.kind.elems|)), env.dimensionless)))
    ensures !args[0].1.kind.Vector? ==>
      BuiltinFunc(env, fc, "len", base, args) == Some(Err(ValueKindMismatch(args[0].0, args[0].1)))
  {
    BuiltinFuncMatchesExpected(env, fc, "len", base, args);
  }

  /** Both names of every alias group are builtins. */
  lemma AliasesListed(i: nat)
    requires i < |AliasPairs|
    ensures AliasPairs[i].0 in BuiltinFunctionNames && AliasPairs[i].1 in BuiltinFunctionNames
  {
    var (a, b) := AliasPairs[i];
    var arm := if i == 0 then 1 else if i == 1 then 3 else if i == 2 then 5 else 8;
    ArmNameListed(arm, a);
    ArmNameListed(arm, b);
  }

  /** The two names of an alias group give identical results on identical inputs. */
  lemma AliasesAgree(env: Env, fc: FC, i: nat, base: Value, args: seq<(FC, Value)>)
    requires i < |AliasPairs|
    ensures BuiltinFunc(env, fc, AliasPairs[i].0, base, args)
      == BuiltinFunc(env, fc, AliasPairs[i].1, base, args)
  {
    var (a, b) := AliasPairs[i];
    var arm := if i == 0 then 1 else if i == 1 then 3 else if i == 2 then 5 else 8;
    ArmNamesAgree(env, fc, arm, a, b, base, args);
  }
}
