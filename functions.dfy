/**
 * The builtin-function resolver: the table of builtin names and the
 * dispatcher `builtin_func`. The `functions!` macro invocation is modelled as
 * data, `Arms`, one arm per line of the invocation; the name table and the
 * dispatcher are both read off that one table, as the macro expands them.
 */
module Functions {
  import opened Wrappers
  import opened ValueUnit

  /** `conv_float_fn!`: convert to a float, apply the float function, convert back (lossy). */
  function ConvFloat(env: Env, op: FloatOp): Decimal -> Decimal
  {
    n => env.decimalFromFloat(env.applyFloat(op, env.floatFromDecimal(n)))
  }

  /** The conversion is lossy: two decimals with the same float give the same result. */
  lemma ConvFloatThroughFloat(env: Env, op: FloatOp, n: Decimal, m: Decimal)
    requires env.floatFromDecimal(n) == env.floatFromDecimal(m)
    ensures ConvFloat(env, op)(n) == ConvFloat(env, op)(m)
  {
  }

  /** The BigDecimal quotient `BigDecimal::from(p) / BigDecimal::from(q)`. */
  function Quotient(env: Env, p: int, q: int): Decimal
  {
    env.divide(env.decimalFromInt(p), env.decimalFromInt(q))
  }

  /** The argument-unit predicate of a unary rule. */
  datatype UnitCheck = RequireDimensionless | AcceptAnyUnit

  /** How a unary rule derives the result unit from the argument unit. */
  datatype UnitFn = ConstDimensionless | PowQuotient(p: int, q: int)

  /** A rule: the `unary!` macro with its three arguments, or the `len` block. */
  datatype Rule = Unary(unitCheck: UnitCheck, op: FloatOp, unitFn: UnitFn) | Len

  /** `unary_unitless_float!`: dimensionless in, dimensionless out. */
  function UnitlessFloat(op: FloatOp): Rule
  {
    Unary(RequireDimensionless, op, ConstDimensionless)
  }

  /**
   * A unitless rule fails the unit check exactly on a non-dimensionless
   * argument, and every success it gives is dimensionless.
   */
  lemma UnitlessFloatDimensionless(env: Env, op: FloatOp, fc: FC, base: Value, args: seq<(FC, Value)>)
    requires |args| == 1
    ensures var r := ApplyRule(env, UnitlessFloat(op), fc, base, args);
      (r.Err? && r.error.UnitFailure?) <==> args[0].1.unit != env.dimensionless
    ensures var r := ApplyRule(env, UnitlessFloat(op), fc, base, args);
      r.Ok? ==> r.value.unit == env.dimensionless
  {
  }

  /** One line of the macro invocation: a group of alias names and their rule. */
  datatype Arm = Arm(names: seq<string>, rule: Rule)

  /** The macro invocation, line by line, in declaration order. */
  const Arms: seq<Arm> := [
    Arm(["sin"], UnitlessFloat(Sin)),
    Arm(["asin", "arcsin"], UnitlessFloat(Asin)),
    Arm(["cos"], UnitlessFloat(Cos)),
    Arm(["acos", "arccos"], UnitlessFloat(Acos)),
    Arm(["tan"], UnitlessFloat(Tan)),
    Arm(["atan", "arctan"], UnitlessFloat(Atan)),
    Arm(["sqrt"], Unary(AcceptAnyUnit, Sqrt, PowQuotient(1, 2))),
    Arm(["cbrt"], Unary(AcceptAnyUnit, Cbrt, PowQuotient(1, 3))),
    Arm(["log", "log10"], UnitlessFloat(Log10)),
    Arm(["log2"], UnitlessFloat(Log2)),
    Arm(["ln"], UnitlessFloat(Ln)),
    Arm(["exp"], UnitlessFloat(Exp)),
    Arm(["ceil"], UnitlessFloat(Ceil)),
    Arm(["floor"], UnitlessFloat(Floor)),
    Arm(["round"], UnitlessFloat(Round)),
    Arm(["len"], Len)
  ]

  /** The `@names` expansion: the names of every arm, aliases separately, arm after arm. */
  function NamesOf(arms: seq<Arm>): (names: seq<string>)
    ensures forall i, x :: 0 <= i < |arms| && x in arms[i].names ==> x in names
    ensures forall x :: x in names ==> exists i :: 0 <= i < |arms| && x in arms[i].names
  {
    if arms == [] then [] else arms[0].names + NamesOf(arms[1..])
  }

  /** `BUILTIN_FUNCTION_NAMES`. */
  const BuiltinFunctionNames: seq<string> := NamesOf(Arms)

  /**
   * The expanded `match name` of `builtin_func`: the rule of the first arm
   * that lists `name`, or nothing when no arm does (the `_` arm).
   */
  function Lookup(arms: seq<Arm>, name: string): (r: Option<Rule>)
    ensures r.Some? <==> exists i :: 0 <= i < |arms| && name in arms[i].names
    ensures r.Some? ==> exists i :: 0 <= i < |arms| && name in arms[i].names && arms[i].rule == r.value
  {
    if arms == [] then None
    else if name in arms[0].names then Some(arms[0].rule)
    else Lookup(arms[1..], name)
  }

  /** No name is listed twice within one arm. */
  ghost predicate ArmsNamesDistinct(arms: seq<Arm>)
  {
    forall i, k, l :: 0 <= i < |arms| && 0 <= k < l < |arms[i].names| ==>
      arms[i].names[k] != arms[i].names[l]
  }

  /** Arm `j` lists no name that an earlier arm lists. */
  ghost predicate DisjointFromEarlier(arms: seq<Arm>, j: nat)
    requires j < |arms|
  {
    forall i, x :: 0 <= i < j && x in arms[i].names ==> x !in arms[j].names
  }

  /** No name is listed by two arms. */
  ghost predicate ArmsDisjoint(arms: seq<Arm>)
  {
    forall j :: 0 <= j < |arms| ==> DisjointFromEarlier(arms, j)
  }

  /** A list of names with no name twice. */
  ghost predicate Distinct(names: seq<string>)
  {
    forall k, l :: 0 <= k < l < |names| ==> names[k] != names[l]
  }

  /** Dropping the first arm keeps the arms disjoint. */
  lemma ArmsDisjointTail(arms: seq<Arm>)
    requires arms != [] && ArmsDisjoint(arms)
    ensures ArmsDisjoint(arms[1..])
  {
    forall j | 0 <= j < |arms[1..]| ensures DisjointFromEarlier(arms[1..], j) {
      assert DisjointFromEarlier(arms, j + 1);
      forall i, x | 0 <= i < j && x in arms[1..][i].names ensures x !in arms[1..][j].names {
        assert arms[1..][i] == arms[i + 1];
      }
    }
  }

  /** A name resolves to the rule of the first arm that lists it. */
  lemma {:induction false} LookupFinds(arms: seq<Arm>, i: nat, name: string)
    requires i < |arms| && name in arms[i].names
    requires forall j :: 0 <= j < i ==> name !in arms[j].names
    ensures Lookup(arms, name) == Some(arms[i].rule)
  {
    if i > 0 {
      assert name !in arms[0].names;
      LookupFinds(arms[1..], i - 1, name);
    }
  }

  /** Arms whose names are distinct and disjoint expand to a list with no name twice. */
  lemma {:induction false} NamesOfDistinct(arms: seq<Arm>)
    requires ArmsNamesDistinct(arms) && ArmsDisjoint(arms)
    ensures Distinct(NamesOf(arms))
  {
    if arms != [] {
      var head, tail := arms[0].names, NamesOf(arms[1..]);
      assert ArmsNamesDistinct(arms[1..]) by {
        forall i | 0 <= i < |arms[1..]| ensures arms[1..][i] == arms[i + 1] { }
      }
      ArmsDisjointTail(arms);
      NamesOfDistinct(arms[1..]);
      forall x | x in head ensures x !in tail {
        forall j | 0 <= j < |arms[1..]| ensures x !in arms[1..][j].names {
          assert DisjointFromEarlier(arms, j + 1);
        }
      }
      forall k, l | 0 <= k < l < |head + tail| ensures (head + tail)[k] != (head + tail)[l] {
        if k < |head| && |head| <= l {
          assert head[k] in head && tail[l - |head|] in tail;
        }
      }
    }
  }

  // The invocation's arms share no name, checked a few arms at a time.
  lemma ArmsDisjointTrig()
    ensures forall j | 0 <= j < 6 :: DisjointFromEarlier(Arms, j)
  {
  }

  lemma ArmsDisjointPowerLog()
    ensures forall j | 6 <= j < 10 :: DisjointFromEarlier(Arms, j)
  {
  }

  lemma ArmsDisjointLnCeil()
    ensures forall j | 10 <= j < 13 :: DisjointFromEarlier(Arms, j)
  {
  }

  lemma ArmsDisjointRest()
    ensures forall j | 13 <= j < 16 :: DisjointFromEarlier(Arms, j)
  {
  }

  /** The arms of the invocation list each name once and share no name. */
  lemma ArmsWellFormed()
    ensures ArmsNamesDistinct(Arms) && ArmsDisjoint(Arms)
  {
    ArmsDisjointTrig();
    ArmsDisjointPowerLog();
    ArmsDisjointLnCeil();
    ArmsDisjointRest();
  }

  /** Every name an arm of the table lists resolves to that arm's rule. */
  lemma ArmResolves(i: nat, name: string)
    requires i < |Arms| && name in Arms[i].names
    ensures Lookup(Arms, name) == Some(Arms[i].rule)
  {
    ArmsWellFormed();
    assert DisjointFromEarlier(Arms, i);
    LookupFinds(Arms, i, name);
  }

  /** Unrolls the name list one arm at a time from any position. */
  lemma NamesOfFrom(arms: seq<Arm>, k: nat)
    requires k < |arms|
    ensures NamesOf(arms[k..]) == arms[k].names + NamesOf(arms[k + 1..])
  {
    assert arms[k..][1..] == arms[k + 1..];
  }

  /** The names of the last eight arms, for any arms that list them in declaration order. */
  lemma {:induction false} LaterNamesInOrder(arms: seq<Arm>)
    requires |arms| == 16
    requires arms[8].names == ["log", "log10"] && arms[9].names == ["log2"]
    requires arms[10].names == ["ln"] && arms[11].names == ["exp"]
    requires arms[12].names == ["ceil"] && arms[13].names == ["floor"]
    requires arms[14].names == ["round"] && arms[15].names == ["len"]
    ensures NamesOf(arms[8..]) == ["log", "log10", "log2", "ln", "exp", "ceil", "floor", "round", "len"]
  {
    assert arms[16..] == [];
    NamesOfFrom(arms, 15); NamesOfFrom(arms, 14); NamesOfFrom(arms, 13); NamesOfFrom(arms, 12);
    NamesOfFrom(arms, 11); NamesOfFrom(arms, 10); NamesOfFrom(arms, 9); NamesOfFrom(arms, 8);
  }

  /** The whole name list, for any arms whose first eight list their names in declaration order. */
  lemma {:induction false} EarlierNamesInOrder(arms: seq<Arm>)
    requires |arms| == 16
    requires arms[0].names == ["sin"] && arms[1].names == ["asin", "arcsin"]
    requires arms[2].names == ["cos"] && arms[3].names == ["acos", "arccos"]
    requires arms[4].names == ["tan"] && arms[5].names == ["atan", "arctan"]
    requires arms[6].names == ["sqrt"] && arms[7].names == ["cbrt"]
    requires NamesOf(arms[8..]) == ["log", "log10", "log2", "ln", "exp", "ceil", "floor", "round", "len"]
    ensures NamesOf(arms) == [
      "sin", "asin", "arcsin", "cos", "acos", "arccos", "tan", "atan", "arctan",
      "sqrt", "cbrt", "log", "log10", "log2", "ln", "exp", "ceil", "floor", "round", "len"]
  {
    NamesOfFrom(arms, 7); NamesOfFrom(arms, 6); NamesOfFrom(arms, 5); NamesOfFrom(arms, 4);
    NamesOfFrom(arms, 3); NamesOfFrom(arms, 2); NamesOfFrom(arms, 1); NamesOfFrom(arms, 0);
    assert arms[0..] == arms;
    assert NamesOf(arms) == ["sin"] + (["asin", "arcsin"] + (["cos"] + (["acos", "arccos"] +
      (["tan"] + (["atan", "arctan"] + (["sqrt"] + (["cbrt"] + NamesOf(arms[8..]))))))));
    FlattenEarlierNames(NamesOf(arms[8..]));
  }

  /** Concatenating the first eight arms' name lists in front of the later names. */
  lemma FlattenEarlierNames(later: seq<string>)
    requires later == ["log", "log10", "log2", "ln", "exp", "ceil", "floor", "round", "len"]
    ensures ["sin"] + (["asin", "arcsin"] + (["cos"] + (["acos", "arccos"] +
      (["tan"] + (["atan", "arctan"] + (["sqrt"] + (["cbrt"] + later))))))) == [
      "sin", "asin", "arcsin", "cos", "acos", "arccos", "tan", "atan", "arctan",
      "sqrt", "cbrt", "log", "log10", "log2", "ln", "exp", "ceil", "floor", "round", "len"]
  {
  }

  /** The name lists of the trigonometric arms of the table. */
  lemma TrigArmNames()
    ensures |Arms| == 16
    ensures Arms[0].names == ["sin"] && Arms[1].names == ["asin", "arcsin"]
    ensures Arms[2].names == ["cos"] && Arms[3].names == ["acos", "arccos"]
    ensures Arms[4].names == ["tan"] && Arms[5].names == ["atan", "arctan"]
  {
  }

  /** The name lists of the two root arms of the table. */
  lemma RootArmNames()
    ensures |Arms| == 16
    ensures Arms[6].names == ["sqrt"] && Arms[7].names == ["cbrt"]
  {
  }

  /** The name lists of the last eight arms of the table. */
  lemma LaterArmNames()
    ensures |Arms| == 16
    ensures Arms[8].names == ["log", "log10"] && Arms[9].names == ["log2"]
    ensures Arms[10].names == ["ln"] && Arms[11].names == ["exp"]
    ensures Arms[12].names == ["ceil"] && Arms[13].names == ["floor"]
    ensures Arms[14].names == ["round"] && Arms[15].names == ["len"]
  {
  }

  /** The name table lists the builtins in declaration order, each alias right after its name. */
  lemma NameTableInOrder()
    ensures BuiltinFunctionNames == [
      "sin", "asin", "arcsin", "cos", "acos", "arccos", "tan", "atan", "arctan",
      "sqrt", "cbrt", "log", "log10", "log2", "ln", "exp", "ceil", "floor", "round", "len"]
  {
    LaterArmNames();
    LaterNamesInOrder(Arms);
    TrigArmNames();
    RootArmNames();
    EarlierNamesInOrder(Arms);
  }


  /** The name table holds no name twice. */
  lemma NameTableDistinct()
    ensures Distinct(BuiltinFunctionNames)
  {
    ArmsWellFormed();
    NamesOfDistinct(Arms);
  }

  /** The name table lists exactly the names the dispatcher matches. */
  lemma NameTableMatchesDispatcher(name: string)
    ensures name in BuiltinFunctionNames <==> Lookup(Arms, name).Some?
  {
  }

  /** `argument_count_check!`: the arguments themselves, or the arity error. */
  function ArgumentCountCheck(expected: nat, fc: FC, base: Value, args: seq<(FC, Value)>)
    : (r: Result<seq<(FC, Value)>, EvalError>)
    ensures r.Ok? <==> |args| == expected
    ensures r.Ok? ==> r.value == args
    ensures r.Err? ==> r.error == CallArgumentMismatch(fc, base, expected, |args|)
  {
    if |args| != expected then Err(CallArgumentMismatch(fc, base, expected, |args|))
    else Ok(args)
  }

  /** The unit predicate a unary rule applies to its argument's unit. */
  function UnitAccepts(env: Env, check: UnitCheck, u: Unit): (r: bool)
    ensures r <==> check == AcceptAnyUnit || u == env.dimensionless
  {
    match check
    case RequireDimensionless => u == env.dimensionless
    case AcceptAnyUnit => true
  }

  /** The unit function a unary rule applies to its argument's unit. */
  function ResultUnit(env: Env, unitFn: UnitFn, u: Unit): (r: Unit)
    ensures unitFn == ConstDimensionless ==> r == env.dimensionless
    ensures unitFn.PowQuotient? ==> r == env.pow(u, Quotient(env, unitFn.p, unitFn.q))
  {
    match unitFn
    case ConstDimensionless => env.dimensionless
    case PowQuotient(p, q) => env.pow(u, Quotient(env, p, q))
  }

  /** `unary!`: arity, then the unit check, then the kind check, then the result. */
  function ApplyUnary(env: Env, check: UnitCheck, op: FloatOp, unitFn: UnitFn,
                      fc: FC, base: Value, args: seq<(FC, Value)>): (r: Result<Value, EvalError>)
    ensures (r.Err? && r.error.CallArgumentMismatch?) <==> |args| != 1
    ensures |args| != 1 ==> r == Err(CallArgumentMismatch(fc, base, 1, |args|))
    ensures (r.Err? && r.error.UnitFailure?) <==>
      |args| == 1 && !UnitAccepts(env, check, args[0].1.unit)
    ensures (r.Err? && r.error.ValueKindMismatch?) <==>
      |args| == 1 && UnitAccepts(env, check, args[0].1.unit) && !args[0].1.kind.Number?
    ensures r.Err? && r.error.UnitFailure? ==>
      r.error.unitError == UnitMismatch(args[0].0, args[0].1.unit, env.dimensionless)
    ensures r.Err? && r.error.ValueKindMismatch? ==> r.error == ValueKindMismatch(args[0].0, args[0].1)
    ensures r.Ok? ==>
      r.value == Value(Number(ConvFloat(env, op)(args[0].1.kind.n)), ResultUnit(env, unitFn, args[0].1.unit))
  {
    match ArgumentCountCheck(1, fc, base, args)
    case Err(e) => Err(e)
    case Ok(checked) =>
      var argFc, arg := checked[0].0, checked[0].1;
      if !UnitAccepts(env, check, arg.unit) then
        Err(UnitFailure(UnitMismatch(argFc, arg.unit, env.dimensionless)))
      else
        match MapNumber(arg.kind, ConvFloat(env, op))
        case None => Err(ValueKindMismatch(argFc, arg))
        case Some(kind) => Ok(Value(kind, ResultUnit(env, unitFn, arg.unit)))
  }

  /** The `len` block: arity, then a vector's length as a dimensionless number. */
  function ApplyLen(env: Env, fc: FC, base: Value, args: seq<(FC, Value)>): (r: Result<Value, EvalError>)
    ensures (r.Err? && r.error.CallArgumentMismatch?) <==> |args| != 1
    ensures |args| != 1 ==> r == Err(CallArgumentMismatch(fc, base, 1, |args|))
    ensures r.Ok? <==> |args| == 1 && args[0].1.kind.Vector?
    ensures r.Ok? ==> r.value == Value(Number(env.decimalFromInt(|args[0].1.kind.elems|)), env.dimensionless)
    ensures r.Err? && |args| == 1 ==> r.error == ValueKindMismatch(args[0].0, args[0].1)
  {
    match ArgumentCountCheck(1, fc, base, args)
    case Err(e) => Err(e)
    case Ok(checked) =>
      var argFc, arg := checked[0].0, checked[0].1;
      match arg.kind
      case Vector(e) => Ok(Value(Number(env.decimalFromInt(|e|)), env.dimensionless))
      case Number(_) => Err(ValueKindMismatch(argFc, arg))
  }

  /**
   * The body of the matched arm. Every body starts with the arity check; only
   * a rule that demands a dimensionless argument raises a unit error; `len`
   * succeeds on a vector, a unary rule on a number.
   */
  function ApplyRule(env: Env, rule: Rule, fc: FC, base: Value, args: seq<(FC, Value)>)
    : (r: Result<Value, EvalError>)
    ensures |args| != 1 ==> r == Err(CallArgumentMismatch(fc, base, 1, |args|))
    ensures r.Err? && r.error.UnitFailure? ==> rule.Unary? && rule.unitCheck == RequireDimensionless
    ensures r.Ok? ==> |args| == 1 && (rule.Len? <==> args[0].1.kind.Vector?)
  {
    match rule
    case Unary(check, op, unitFn) => ApplyUnary(env, check, op, unitFn, fc, base, args)
    case Len => ApplyLen(env, fc, base, args)
  }

  /**
   * `builtin_func(fc, name, base, args)`: `None` when `name` is not a builtin,
   * otherwise the outcome of its rule.
   */
  function BuiltinFunc(env: Env, fc: FC, name: string, base: Value, args: seq<(FC, Value)>)
    : (r: Option<Result<Value, EvalError>>)
    ensures r.Some? <==> exists i :: 0 <= i < |Arms| && name in Arms[i].names
  {
    match Lookup(Arms, name)
    case None => None
    case Some(rule) => Some(ApplyRule(env, rule, fc, base, args))
  }

  /** Every name an arm lists is in the name table. */
  lemma ArmNameListed(i: nat, name: string)
    requires i < |Arms| && name in Arms[i].names
    ensures name in BuiltinFunctionNames
  {
  }

  /** Two names listed by one arm give identical results. */
  lemma ArmNamesAgree(env: Env, fc: FC, i: nat, a: string, b: string, base: Value, args: seq<(FC, Value)>)
    requires i < |Arms| && a in Arms[i].names && b in Arms[i].names
    ensures BuiltinFunc(env, fc, a, base, args) == BuiltinFunc(env, fc, b, base, args)
  {
    ArmResolves(i, a);
    ArmResolves(i, b);
  }
}
