/**
  * Evaluation of syntax trees against the interpreter's environment, a map from names
  * to numbers. `Eval` and `Run` say what evaluating an expression and executing a
  * script yield. The class `Interpreter` holds the environment and the printed values,
  * and its methods are proved to agree with them. Numbers are exact reals.
  */
module Interpretation {
  import opened Wrappers
  import opened Ast

  type Env = map<string, real>

  /** The evaluator's fatal errors, each of which ends the session. */
  datatype RuntimeError =
    | UndefinedVariable(name: string)        // a name read before any binding
    | UnknownAssignmentTarget(name: string)  // an assignment to a name never declared
    | DivisionByZero                         // `/` with a zero divisor
    | ModuloByZero                           // `%` whose divisor truncates to zero

  /** Python's `float(b)` for a Boolean. */
  function BoolValue(b: bool): (v: real)
    ensures v == 1.0 || v == 0.0
    ensures v == 1.0 <==> b
  {
    if b then 1.0 else 0.0
  }

  /**
    * `float(l and r)` for `and`, `float(l or r)` for any other operator. Both operands
    * are already evaluated; the result is one of them, not a normalised truth value.
    */
  function LogicalValue(op: string, l: real, r: real): (v: real)
    ensures v == l || v == r
    ensures op == "and" ==> (v != 0.0 <==> l != 0.0 && r != 0.0)
    ensures op != "and" ==> (v != 0.0 <==> l != 0.0 || r != 0.0)
    ensures op == "and" && l != 0.0 ==> v == r
    ensures op != "and" && l != 0.0 ==> v == l
  {
    if op == "and" then (if l == 0.0 then l else r)
    else (if l != 0.0 then l else r)
  }

  /** `==` compares for equality; any other operator is taken as `!=`. */
  function EqualityValue(op: string, l: real, r: real): (v: real)
    ensures v == 1.0 || v == 0.0
    ensures op == "==" ==> (v == 1.0 <==> l == r)
    ensures op != "==" ==> (v == 1.0 <==> l != r)
  {
    if op == "==" then BoolValue(l == r) else BoolValue(l != r)
  }

  /** `<`, `<=` and `>` as written; any other operator is taken as `>=`. */
  function RelationalValue(op: string, l: real, r: real): (v: real)
    ensures v == 1.0 || v == 0.0
    ensures op == "<" ==> (v == 1.0 <==> l < r)
    ensures op == "<=" ==> (v == 1.0 <==> l <= r)
    ensures op == ">" ==> (v == 1.0 <==> l > r)
    ensures op != "<" && op != "<=" && op != ">" ==> (v == 1.0 <==> l >= r)
  {
    if op == "<" then BoolValue(l < r)
    else if op == "<=" then BoolValue(l <= r)
    else if op == ">" then BoolValue(l > r)
    else BoolValue(l >= r)
  }

  /** `+` adds; any other operator subtracts. */
  function AddValue(op: string, l: real, r: real): (v: real)
    ensures op == "+" ==> v - r == l
    ensures op != "+" ==> v + r == l
  {
    if op == "+" then l + r else l - r
  }

  /** `*` multiplies; any other operator divides, which fails on a zero divisor. */
  function MulValue(op: string, l: real, r: real): (v: Result<real, RuntimeError>)
    ensures op == "*" ==> v == Ok(l * r)
    ensures op != "*" ==> (v.Err? <==> r == 0.0)
    ensures op != "*" && v.Ok? ==> v.value * r == l
  {
    if op == "*" then Ok(l * r)
    else if r == 0.0 then Err(DivisionByZero)
    else Ok(l / r)
  }

  /** Python's `int(x)`: the integer part, truncating toward zero. */
  function Truncate(x: real): (n: int)
    ensures x >= 0.0 ==> 0 <= n && n as real <= x < n as real + 1.0
    ensures x < 0.0 ==> n <= 0 && n as real - 1.0 < x <= n as real
  {
    if x >= 0.0 then x.Floor else -((-x).Floor)
  }

  /** Python's floor division `a // b`. */
  function FloorDiv(a: int, b: int): int
    requires b != 0
  {
    if b < 0 && a % b != 0 then a / b - 1 else a / b
  }

  /** Python's `a % b` on integers: the remainder of floor division, with the divisor's sign. */
  function PyMod(a: int, b: int): (m: int)
    requires b != 0
    ensures b > 0 ==> 0 <= m < b
    ensures b < 0 ==> b < m <= 0
    ensures a == b * FloorDiv(a, b) + m
  {
    if b < 0 && a % b != 0 then a % b + b else a % b
  }

  /** `int(l) % int(r)`: both operands truncated, then Python's integer remainder. */
  function ModulusValue(l: real, r: real): (v: Result<real, RuntimeError>)
    ensures v.Err? <==> Truncate(r) == 0
    ensures v.Ok? ==> v.value == PyMod(Truncate(l), Truncate(r)) as real
  {
    var a := Truncate(l);
    var b := Truncate(r);
    if b == 0 then Err(ModuloByZero) else Ok(PyMod(a, b) as real)
  }

  /** `-1 * v`. */
  function NegateValue(v: real): (n: real)
    ensures n + v == 0.0
  {
    -1.0 * v
  }

  /** `float(not v)`: 1.0 exactly when `v` is zero. */
  function NotValue(v: real): (n: real)
    ensures n == 1.0 || n == 0.0
    ensures n == 1.0 <==> v == 0.0
  {
    BoolValue(v == 0.0)
  }

  /** The value a binary node computes from its evaluated operands. */
  function BinaryValue(e: Expr, a: real, b: real): Result<real, RuntimeError>
    requires e.IsBinary()
  {
    match e
    case LogicalExpr(_, op, _) => Ok(LogicalValue(op, a, b))
    case EqualityExpr(_, op, _) => Ok(EqualityValue(op, a, b))
    case RelationalExpr(_, op, _) => Ok(RelationalValue(op, a, b))
    case AddExpr(_, op, _) => Ok(AddValue(op, a, b))
    case ModulusExpr(_, _) => ModulusValue(a, b)
    case MulExpr(_, op, _) => MulValue(op, a, b)
  }

  /** A value together with the environment after computing it. */
  datatype Evaluated = Evaluated(value: real, env: Env)

  /** Both operand values of a binary node and the environment after the right one. */
  datatype Operands = Operands(left: real, right: real, env: Env)

  /** Expression evaluation, threading the environment from left to right. */
  function Eval(e: Expr, env: Env): (r: Result<Evaluated, RuntimeError>)
    ensures r.Ok? ==> r.value.env.Keys == env.Keys
    decreases e, 1
  {
    match e
    case Assignment(w, x) =>
      if w !in env then Err(UnknownAssignmentTarget(w))
      else (
        match Eval(x, env)
        case Err(err) => Err(err)
        case Ok(Evaluated(v, env1)) => Ok(Evaluated(v, env1[w := v])))
    case NegateExpr(x) =>
      (match Eval(x, env)
       case Err(err) => Err(err)
       case Ok(Evaluated(v, env1)) => Ok(Evaluated(NegateValue(v), env1)))
    case NotExpr(x) =>
      (match Eval(x, env)
       case Err(err) => Err(err)
       case Ok(Evaluated(v, env1)) => Ok(Evaluated(NotValue(v), env1)))
    case NumberNode(v) => Ok(Evaluated(v, env))
    case BooleanNode(b) => Ok(Evaluated(BoolValue(b), env))
    case IdentifierNode(w) =>
      if w in env then Ok(Evaluated(env[w], env)) else Err(UndefinedVariable(w))
    case _ =>
      match EvalOperands(e, env)
      case Err(err) => Err(err)
      case Ok(Operands(a, b, env2)) =>
        match BinaryValue(e, a, b)
        case Err(err) => Err(err)
        case Ok(v) => Ok(Evaluated(v, env2))
  }

  /** Both operands of a binary node, left first; neither operator short-circuits. */
  function EvalOperands(e: Expr, env: Env): (r: Result<Operands, RuntimeError>)
    requires e.IsBinary()
    ensures r.Ok? ==> r.value.env.Keys == env.Keys
    decreases e, 0
  {
    match Eval(e.left, env)
    case Err(err) => Err(err)
    case Ok(Evaluated(a, env1)) =>
      match Eval(e.right, env1)
      case Err(err) => Err(err)
      case Ok(Evaluated(b, env2)) => Ok(Operands(a, b, env2))
  }

  /** The environment after a statement and the values it printed. */
  datatype Executed = Executed(env: Env, printed: seq<real>)

  /**
    * One statement. An expression statement and a `print` statement each print their
    * value; a `let` binds its name (creating or overwriting it) and prints nothing.
    */
  function ExecStmt(s: Stmt, env: Env): (r: Result<Executed, RuntimeError>)
    ensures r.Ok? ==> (r.value.printed == [] <==> s.LetDecl?) && |r.value.printed| <= 1
    ensures r.Ok? && s.LetDecl? ==> r.value.env.Keys == env.Keys + (if s.init.Some? then {s.name} else {})
    ensures r.Ok? && !s.LetDecl? ==> r.value.env.Keys == env.Keys
  {
    match s
    case LetDecl(name, None) => Ok(Executed(env, []))
    case LetDecl(name, Some(x)) =>
      (match Eval(x, env)
       case Err(err) => Err(err)
       case Ok(Evaluated(v, env1)) => Ok(Executed(env1[name := v], [])))
    case ExprStmt(x) =>
      (match Eval(x, env)
       case Err(err) => Err(err)
       case Ok(Evaluated(v, env1)) => Ok(Executed(env1, [v])))
    case PrintStmt(x) =>
      match Eval(x, env)
      case Err(err) => Err(err)
      case Ok(Evaluated(v, env1)) => Ok(Executed(env1, [v]))
  }

  /** The state after running statements: environment, printed values, and the error that stopped it. */
  datatype Trace = Trace(env: Env, printed: seq<real>, error: Option<RuntimeError>)

  /** Running a script in order, stopping at the first error. */
  function Run(script: seq<Stmt>, env: Env): (r: Trace)
    ensures env.Keys <= r.env.Keys
    ensures |r.printed| <= |script|
    decreases |script|
  {
    if script == [] then Trace(env, [], None)
    else
      var t := Run(script[..|script| - 1], env);
      if t.error.Some? then t
      else
        match ExecStmt(script[|script| - 1], t.env)
        case Err(err) => Trace(t.env, t.printed, Some(err))
        case Ok(Executed(env2, out)) => Trace(env2, t.printed + out, None)
  }

  /** A method's result paired with the environment it left behind. */
  function Valued(r: Result<real, RuntimeError>, env: Env): Result<Evaluated, RuntimeError> {
    match r
    case Ok(v) => Ok(Evaluated(v, env))
    case Err(x) => Err(x)
  }

  class Interpreter {
    var environment: Env
    /** The values printed so far, in order. */
    var output: seq<real>

    constructor()
      ensures environment == map[] && output == []
    {
      environment := map[];
      output := [];
    }

    /** `e.accept(self)`: evaluates `e`, writing assignments into `environment`. */
    method Accept(e: Expr) returns (r: Result<real, RuntimeError>)
      modifies this`environment
      ensures Valued(r, environment) == Eval(e, old(environment))
      decreases e
    {
      match e
      case Assignment(w, x) =>
        if w in environment {
          var v := Accept(x);
          if v.Err? {
            return v;
          }
          environment := environment[w := v.value];
          return v;
        }
        return Err(UnknownAssignmentTarget(w));
      case NegateExpr(x) =>
        var v := Accept(x);
        if v.Err? {
          return v;
        }
        return Ok(NegateValue(v.value));
      case NotExpr(x) =>
        var v := Accept(x);
        if v.Err? {
          return v;
        }
        return Ok(NotValue(v.value));
      case NumberNode(v) =>
        return Ok(v);
      case BooleanNode(b) =>
        return Ok(BoolValue(b));
      case IdentifierNode(w) =>
        if w in environment {
          return Ok(environment[w]);
        }
        return Err(UndefinedVariable(w));
      case _ =>
        var l := Accept(e.left);
        if l.Err? {
          return l;
        }
        var rv := Accept(e.right);
        if rv.Err? {
          return rv;
        }
        r := BinaryValue(e, l.value, rv.value);
    }

    /** One statement of `execute`, with the `print` of an expression statement's value. */
    method ExecuteStmt(s: Stmt) returns (r: Outcome<RuntimeError>)
      modifies this
      ensures ExecStmt(s, old(environment)).Err? ==>
                r == Fail(ExecStmt(s, old(environment)).error) && output == old(output)
      ensures ExecStmt(s, old(environment)).Ok? ==>
                r.Pass? && environment == ExecStmt(s, old(environment)).value.env &&
                output == old(output) + ExecStmt(s, old(environment)).value.printed
    {
      match s
      case LetDecl(name, None) =>
        return Pass;
      case LetDecl(name, Some(x)) =>
        var v := Accept(x);
        if v.Err? {
          return Fail(v.error);
        }
        environment := environment[name := v.value];
        return Pass;
      case ExprStmt(x) =>
        var v := Accept(x);
        if v.Err? {
          return Fail(v.error);
        }
        output := output + [v.value];
        return Pass;
      case PrintStmt(x) =>
        var v := Accept(x);
        if v.Err? {
          return Fail(v.error);
        }
        output := output + [v.value];
        return Pass;
    }

    /** `execute`: the statements in order, stopping at the first error. */
    method Execute(script: seq<Stmt>) returns (r: Outcome<RuntimeError>)
      modifies this
      ensures output == old(output) + Run(script, old(environment)).printed
      ensures r.Pass? <==> Run(script, old(environment)).error.None?
      ensures r.Fail? ==> Run(script, old(environment)).error == Some(r.error)
      ensures r.Pass? ==> environment == Run(script, old(environment)).env
    {
      ghost var env0 := environment;
      ghost var out0 := output;
      var k := 0;
      while k < |script|
        invariant 0 <= k <= |script|
        invariant Run(script[..k], env0).error.None?
        invariant environment == Run(script[..k], env0).env
        invariant output == out0 + Run(script[..k], env0).printed
      {
        assert script[..k + 1][..k] == script[..k];
        var step := ExecuteStmt(script[k]);
        if step.Fail? {
          assert Run(script, env0) == Run(script[..k + 1], env0) by {
            RunStopped(script, k + 1, env0);
          }
          return step;
        }
        k := k + 1;
      }
      assert script[..k] == script;
      return Pass;
    }
  }

  /** Once a prefix of a script has failed, the rest of the script changes nothing. */
  lemma {:induction false} RunStopped(script: seq<Stmt>, k: nat, env: Env)
    requires k <= |script| && Run(script[..k], env).error.Some?
    ensures Run(script, env) == Run(script[..k], env)
    decreases |script| - k
  {
    if k < |script| {
      assert script[..k + 1][..k] == script[..k];
      RunStopped(script, k + 1, env);
    } else {
      assert script[..k] == script;
    }
  }

  /**
    * Evaluation keeps the set of bound names (assignment only overwrites an existing
    * binding) and changes no binding the expression does not assign.
    */
  lemma {:induction false} EvalFrame(e: Expr, env: Env)
    requires Eval(e, env).Ok?
    ensures Eval(e, env).value.env.Keys == env.Keys
    ensures forall k :: k in env && k !in e.AssignedNames() ==> Eval(e, env).value.env[k] == env[k]
    decreases e, 1
  {
    match e
    case Assignment(w, x) =>
      EvalFrame(x, env);
    case NegateExpr(x) =>
      EvalFrame(x, env);
    case NotExpr(x) =>
      EvalFrame(x, env);
    case NumberNode(_) =>
    case BooleanNode(_) =>
    case IdentifierNode(_) =>
    case _ =>
      OperandsFrame(e, env);
  }

  lemma {:induction false} OperandsFrame(e: Expr, env: Env)
    requires e.IsBinary() && EvalOperands(e, env).Ok?
    ensures EvalOperands(e, env).value.env.Keys == env.Keys
    ensures forall k :: k in env && k !in e.AssignedNames() ==> EvalOperands(e, env).value.env[k] == env[k]
    decreases e, 0
  {
    EvalFrame(e.left, env);
    var env1 := Eval(e.left, env).value.env;
    EvalFrame(e.right, env1);
  }

  /** An expression without assignments leaves the environment exactly as it was. */
  lemma PureEvalKeepsEnv(e: Expr, env: Env)
    requires e.AssignedNames() == {} && Eval(e, env).Ok?
    ensures Eval(e, env).value.env == env
  {
    EvalFrame(e, env);
  }

  /** Running a script in two parts. */
  function Then(t: Trace, rest: seq<Stmt>): Trace {
    if t.error.Some? then t
    else
      var t2 := Run(rest, t.env);
      Trace(t2.env, t.printed + t2.printed, t2.error)
  }

  /** Running `a + b` is running `a`, then `b` from where `a` left off. */
  lemma {:induction false} RunAppend(a: seq<Stmt>, b: seq<Stmt>, env: Env)
    ensures Run(a + b, env) == Then(Run(a, env), b)
    decreases |b|
  {
    if b == [] {
      assert a + b == a;
      assert Run(a, env).printed + [] == Run(a, env).printed;
    } else {
      var b0 := b[..|b| - 1];
      assert (a + b)[..|a + b| - 1] == a + b0;
      assert (a + b)[|a + b| - 1] == b[|b| - 1];
      RunAppend(a, b0, env);
      var t := Run(a, env);
      if t.error.None? {
        var t0 := Run(b0, t.env);
        if t0.error.None? {
          match ExecStmt(b[|b| - 1], t0.env)
          case Err(_) =>
          case Ok(Executed(_, out)) =>
            assert t.printed + t0.printed + out == t.printed + (t0.printed + out);
        }
      }
    }
  }

  /** The number of statements of `script` that print a value: all but the `let` declarations. */
  function PrintingCount(script: seq<Stmt>): nat {
    if script == [] then 0
    else PrintingCount(script[..|script| - 1]) + (if script[|script| - 1].LetDecl? then 0 else 1)
  }

  /** A script that runs to the end prints one value per expression or `print` statement. */
  lemma {:induction false} PrintedCount(script: seq<Stmt>, env: Env)
    requires Run(script, env).error.None?
    ensures |Run(script, env).printed| == PrintingCount(script)
    decreases |script|
  {
    if script != [] {
      PrintedCount(script[..|script| - 1], env);
    }
  }

  /** Assignment needs an existing binding: it fails on a fresh name even when its value is fine. */
  lemma AssignmentNeedsBinding(w: string, x: Expr, env: Env)
    ensures w !in env ==> Eval(Assignment(w, x), env) == Err(UnknownAssignmentTarget(w))
    ensures w in env && Eval(x, env).Ok? ==>
              Eval(Assignment(w, x), env) ==
                Ok(Evaluated(Eval(x, env).value.value, Eval(x, env).value.env[w := Eval(x, env).value.value]))
  {
  }

  /**
    * A `let` without a value changes nothing and prints nothing. A `let` with a value binds
    * its name to that value, creating or overwriting it, and every other name the
    * initializer does not assign keeps its value.
    */
  lemma LetBinds(n: string, x: Expr, env: Env)
    ensures ExecStmt(LetDecl(n, None), env) == Ok(Executed(env, []))
    ensures Eval(x, env).Err? ==> ExecStmt(LetDecl(n, Some(x)), env) == Err(Eval(x, env).error)
    ensures Eval(x, env).Ok? ==>
              var post := ExecStmt(LetDecl(n, Some(x)), env);
              && post.Ok? && post.value.printed == []
              && post.value.env.Keys == env.Keys + {n}
              && post.value.env[n] == Eval(x, env).value.value
              && (forall k :: k in env && k != n && k !in x.AssignedNames() ==> post.value.env[k] == env[k])
  {
    if Eval(x, env).Ok? {
      EvalFrame(x, env);
    }
  }

  /** A `let` creates the binding an assignment then overwrites; the assignment prints its value. */
  lemma LetThenAssign()
    ensures Run([LetDecl("x", Some(NumberNode(1.0))), ExprStmt(Assignment("x", NumberNode(2.0)))], map[]) ==
            Trace(map["x" := 2.0], [2.0], None)
  {
    var s := [LetDecl("x", Some(NumberNode(1.0))), ExprStmt(Assignment("x", NumberNode(2.0)))];
    assert s[..1] == [LetDecl("x", Some(NumberNode(1.0)))];
    assert s[..1][..0] == [];
    assert map["x" := 1.0]["x" := 2.0] == map["x" := 2.0];
  }

  /** The logical operators do not short-circuit: a false left operand still evaluates the right one. */
  lemma NoShortCircuit(w: string, v: real, env: Env)
    requires w in env
    ensures Eval(LogicalExpr(NumberNode(0.0), "and", Assignment(w, NumberNode(v))), env) ==
            Ok(Evaluated(0.0, env[w := v]))
    ensures Eval(LogicalExpr(NumberNode(0.0), "and", IdentifierNode("")), map[]) == Err(UndefinedVariable(""))
  {
    var e := LogicalExpr(NumberNode(0.0), "and", Assignment(w, NumberNode(v)));
    assert Eval(Assignment(w, NumberNode(v)), env) == Ok(Evaluated(v, env[w := v]));
    assert EvalOperands(e, env) == Ok(Operands(0.0, v, env[w := v]));
  }

  /** Negation twice is the identity; `not` twice normalises to 1.0 or 0.0. */
  lemma UnaryTwice(v: real)
    ensures NegateValue(NegateValue(v)) == v
    ensures NotValue(NotValue(v)) == BoolValue(v != 0.0)
  {
  }

  /** Modulus truncates before the remainder, and the remainder takes the divisor's sign. */
  lemma ModulusExamples()
    ensures ModulusValue(7.5, 2.0) == Ok(1.0)
    ensures ModulusValue(7.0, -2.0) == Ok(-1.0)
    ensures ModulusValue(-7.0, 2.0) == Ok(1.0)
    ensures ModulusValue(-7.9, -2.5) == Ok(-1.0)
    ensures ModulusValue(3.0, 0.5) == Err(ModuloByZero)
  {
    assert Truncate(7.5) == 7;
    assert Truncate(-7.9) == -7;
    assert Truncate(-2.5) == -2;
    assert Truncate(0.5) == 0;
  }
}
