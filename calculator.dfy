/**
  The calculator handler behind `POST /api/calculate`: a chain of guards with
  early returns (body, presence, numeric coercion, operator dispatch) wrapped
  in a catch-all that turns any runtime fault into an internal error.

  Floating point is modelled by `real`. Python's `float(str)` and `a ** b` are
  not modelled here; they are the parameters `parseFloat` and `power`, and a
  `None` from either stands for the exception (or unserialisable value) the
  Python runtime would produce.
 */
module Calculator {
  import opened Wrappers
  import opened Json

  /** The error taxonomy of the handler. */
  datatype ErrorKind =
    | InvalidRequest        // no JSON data provided
    | MissingParameters     // a, b or operation missing
    | InvalidType           // a or b not convertible by float()
    | DivisionByZero        // divide with b == 0
    | UnsupportedOperation  // operation outside the five names
    | InternalError         // any exception caught by the outer handler

  /** Exactly one outcome per request: a numeric result or one error kind. */
  datatype Outcome = Ok(value: real) | Err(kind: ErrorKind)

  /** The operator names the handler dispatches on (matched exactly). */
  const OPERATIONS: set<string> := {"add", "subtract", "multiply", "divide", "power"}

  /** The HTTP status code of each outcome. */
  function Status(o: Outcome): (code: int)
    ensures code in {200, 400, 500}
    ensures code == 200 <==> o.Ok?
    ensures code == 500 <==> o == Err(InternalError)
  {
    match o
    case Ok(_) => 200
    case Err(k) => if k == InternalError then 500 else 400
  }

  /**
    The `error` string of the JSON error body. For an internal error the
    handler appends `str(e)` of the caught exception; that diagnostic is not
    part of the model, so only the fixed prefix is given. Every error body
    carries a non-empty message.
   */
  function ErrorMessage(k: ErrorKind): (m: string)
    ensures m != ""
  {
    match k
    case InvalidRequest => "No JSON data provided"
    case MissingParameters => "Missing required parameters: a, b, operation"
    case InvalidType => "Parameters a and b must be numbers"
    case DivisionByZero => "Cannot divide by zero"
    // Two literals joined: the verifier does not unfold a literal this long
    // character by character, and the prefix lemma about it needs the first part.
    case UnsupportedOperation => "Invalid operation. Use: " + "add, subtract, multiply, divide, power"
    case InternalError => "Internal server error: "
  }

  /**
    Python's `float(v)` on a decoded JSON value: numbers are kept, booleans
    become 1.0 and 0.0, strings go through `parseFloat`; `None`, lists and
    dicts raise `TypeError`. `None` here is the ValueError/TypeError.
   */
  function ToFloat(v: Value, parseFloat: string -> Option<real>): (r: Option<real>)
    ensures r.Some? <==> v.Number? || v.Bool? || (v.Str? && parseFloat(v.s).Some?)
    ensures !v.Str? && r.Some? ==> (v.Number? && r.value == v.n) || (v.Bool? && r.value in {0.0, 1.0})
  {
    match v
    case Number(n) => Some(n)
    case Bool(b) => Some(if b then 1.0 else 0.0)
    case Str(s) => parseFloat(s)
    case Null => None
    case Array(_) => None
    case Object(_) => None
  }

  /**
    True when `operation` equals one of the five operator names; any other
    string, and any value that is not a string, is unsupported.
   */
  predicate IsSupported(operation: Value)
    ensures IsSupported(operation) <==> || operation == Str("add") || operation == Str("subtract")
                                        || operation == Str("multiply") || operation == Str("divide")
                                        || operation == Str("power")
  {
    operation.Str? && operation.s in OPERATIONS
  }

  /**
    The if/elif dispatch on the already coerced operands `x` and `y`. Only
    `divide` looks at `y == 0`, and it does so before dividing; only `power`
    can fault.
   */
  function Dispatch(operation: Value, x: real, y: real, power: (real, real) -> Option<real>): (r: Outcome)
    ensures r == Err(UnsupportedOperation) <==> !IsSupported(operation)
    ensures r == Err(DivisionByZero) <==> operation == Str("divide") && y == 0.0
    ensures r == Err(InternalError) <==> operation == Str("power") && power(x, y).None?
    ensures r.Err? ==> r.kind in {UnsupportedOperation, DivisionByZero, InternalError}
    ensures operation == Str("add") ==> r == Ok(x + y)
    ensures operation == Str("subtract") ==> r == Ok(x - y)
    ensures operation == Str("multiply") ==> r == Ok(x * y)
    ensures operation == Str("divide") && y != 0.0 ==> r == Ok(x / y)
    ensures operation == Str("power") && power(x, y).Some? ==> r == Ok(power(x, y).value)
  {
    if operation == Str("add") then Ok(x + y)
    else if operation == Str("subtract") then Ok(x - y)
    else if operation == Str("multiply") then Ok(x * y)
    else if operation == Str("divide") then
      if y == 0.0 then Err(DivisionByZero) else Ok(x / y)
    else if operation == Str("power") then
      match power(x, y)
      case Some(p) => Ok(p)
      case None => Err(InternalError)
    else Err(UnsupportedOperation)
  }

  /**
    The whole handler. A truthy body that is not an object has no `.get`, so
    the AttributeError it raises ends in the catch-all as an internal error.
    Presence of `a` and `b` is `is None`, presence of `operation` is
    truthiness.
   */
  function Calculate(body: Value, parseFloat: string -> Option<real>, power: (real, real) -> Option<real>): (r: Outcome)
    ensures r == Err(InvalidRequest) <==> !Truthy(body)
    ensures r.Ok? ==> body.Object? && IsSupported(Get(body.fields, "operation"))
  {
    if !Truthy(body) then Err(InvalidRequest)
    else if !body.Object? then Err(InternalError)
    else
      var a := Get(body.fields, "a");
      var b := Get(body.fields, "b");
      var operation := Get(body.fields, "operation");
      if a.Null? || b.Null? || !Truthy(operation) then Err(MissingParameters)
      else
        match (ToFloat(a, parseFloat), ToFloat(b, parseFloat))
        case (Some(x), Some(y)) => Dispatch(operation, x, y, power)
        case _ => Err(InvalidType)
  }
}
