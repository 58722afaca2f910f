/** The part of JavaScript's `switch` statement the payment-schedule lookups
    use: the first `case` whose label is strictly equal to the discriminant is
    entered (or `default` when none is), and its statements run on into the
    following clauses until one of them returns or throws. */
module JsSwitch {
  import opened MortgageTypes

  /** A statement of a clause body: `return v;`, a bare expression statement
      `v;` whose value is discarded, or `throw new Error(message);`. */
  datatype Stmt = ReturnStmt(value: nat) | ExprStmt(value: nat) | ThrowStmt(message: string)

  datatype Clause = Case(key: string, body: seq<Stmt>) | Default(body: seq<Stmt>)

  /** How running a piece of code ends: by `return`, by `throw`, or by reaching
      its end (in a function body this last one returns `undefined`). */
  datatype Completion = Returned(value: nat) | Thrown(message: string) | Normal

  function RunBody(body: seq<Stmt>): Completion
  {
    if body == [] then Normal
    else match body[0]
      case ReturnStmt(v) => Returned(v)
      case ThrowStmt(m) => Thrown(m)
      case ExprStmt(_) => RunBody(body[1..])
  }

  /** Runs clause `i` and, while each clause completes normally, the ones after it. */
  function RunFrom(clauses: seq<Clause>, i: nat): Completion
    decreases |clauses| - i
  {
    if i >= |clauses| then Normal
    else
      var c := RunBody(clauses[i].body);
      if c.Normal? then RunFrom(clauses, i + 1) else c
  }

  function FirstCase(clauses: seq<Clause>, s: string, i: nat): Option<nat>
    decreases |clauses| - i
  {
    if i >= |clauses| then None
    else if clauses[i].Case? && clauses[i].key == s then Some(i)
    else FirstCase(clauses, s, i + 1)
  }

  function DefaultClause(clauses: seq<Clause>, i: nat): Option<nat>
    decreases |clauses| - i
  {
    if i >= |clauses| then None
    else if clauses[i].Default? then Some(i)
    else DefaultClause(clauses, i + 1)
  }

  function Switch(clauses: seq<Clause>, s: string): Completion
  {
    match FirstCase(clauses, s, 0)
    case Some(i) => RunFrom(clauses, i)
    case None =>
      match DefaultClause(clauses, 0)
      case Some(i) => RunFrom(clauses, i)
      case None => Normal
  }
}
