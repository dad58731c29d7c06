/**
  What the calculator handler promises: which error is reported when several
  are possible (the checks run in a fixed order), the coercion rules, the
  divide-by-zero guard, the results on success and the status of each outcome.
 */
module CalculatorProperties {
  import opened Wrappers
  import opened Json
  import opened Calculator

  /** `data.get(key)` on an object body; `None` for any other body. */
  function Field(body: Value, key: string): Value {
    if body.Object? then Get(body.fields, key) else Null
  }

  /** The body is an object and passes the presence check. */
  predicate ParametersPresent(body: Value) {
    && body.Object?
    && !Field(body, "a").Null?
    && !Field(body, "b").Null?
    && Truthy(Field(body, "operation"))
  }

  /** The body also passes the numeric coercion of both operands. */
  predicate OperandsNumeric(body: Value, parseFloat: string -> Option<real>) {
    && ParametersPresent(body)
    && ToFloat(Field(body, "a"), parseFloat).Some?
    && ToFloat(Field(body, "b"), parseFloat).Some?
  }

  /** A request object holding exactly the three fields. */
  function Request(a: Value, b: Value, operation: Value): Value {
    Object(map["a" := a, "b" := b, "operation" := operation])
  }

  /** `text` contains `phrase`, as Python's `phrase in text`. */
  predicate Mentions(text: string, phrase: string) {
    exists i :: 0 <= i <= |text| && phrase <= text[i..]
  }

  /** The three keys are distinct strings. */
  lemma KeysDistinct()
    ensures "a" != "b" && "a" != "operation" && "b" != "operation"
  {
    assert "a"[0] != "b"[0];
    assert |"a"| != |"operation"|;
  }

  /** The fields of a request built by `Request`. */
  lemma RequestFields(a: Value, b: Value, operation: Value)
    ensures Request(a, b, operation).Object? && Truthy(Request(a, b, operation))
    ensures Field(Request(a, b, operation), "a") == a
    ensures Field(Request(a, b, operation), "b") == b
    ensures Field(Request(a, b, operation), "operation") == operation
  {
    KeysDistinct();
    assert "a" in Request(a, b, operation).fields;
  }

  /** The body `{a: 5}`: an object holding `a` and nothing else. */
  lemma OnlyAFields()
    ensures Truthy(Object(map["a" := Number(5.0)]))
    ensures Field(Object(map["a" := Number(5.0)]), "b") == Null
  {
    KeysDistinct();
    assert "a" in map["a" := Number(5.0)];
  }

  // ---------------------------------------------------------------------------
  // Step 1: the body check comes first.

  /** Exactly the falsy bodies are reported as an invalid request, with 400. */
  lemma InvalidRequestExactly(body: Value, parseFloat: string -> Option<real>, power: (real, real) -> Option<real>)
    ensures Calculate(body, parseFloat, power) == Err(InvalidRequest) <==> !Truthy(body)
    ensures !Truthy(body) ==> Status(Calculate(body, parseFloat, power)) == 400
  {
  }

  /** The falsy JSON values: absent or null, `false`, `0`, `""`, `[]` and `{}`. */
  lemma FalsyBodies(parseFloat: string -> Option<real>, power: (real, real) -> Option<real>)
    ensures Calculate(Null, parseFloat, power) == Err(InvalidRequest)
    ensures Calculate(Bool(false), parseFloat, power) == Err(InvalidRequest)
    ensures Calculate(Number(0.0), parseFloat, power) == Err(InvalidRequest)
    ensures Calculate(Str(""), parseFloat, power) == Err(InvalidRequest)
    ensures Calculate(Array([]), parseFloat, power) == Err(InvalidRequest)
    ensures Calculate(Object(map[]), parseFloat, power) == Err(InvalidRequest)
  {
  }

  /**
    A truthy body that is not an object fails at `data.get` and ends as an
    internal error with 500, not as an invalid request.
   */
  lemma TruthyNonObjectIsInternalError(body: Value, parseFloat: string -> Option<real>, power: (real, real) -> Option<real>)
    requires Truthy(body) && !body.Object?
    ensures Calculate(body, parseFloat, power) == Err(InternalError)
    ensures Status(Calculate(body, parseFloat, power)) == 500
  {
  }

  // ---------------------------------------------------------------------------
  // Step 2: presence of a, b and operation.

  /**
    Missing parameters are reported exactly for non-empty objects in which `a`
    or `b` is missing or null, or `operation` is falsy.
   */
  lemma MissingParametersExactly(body: Value, parseFloat: string -> Option<real>, power: (real, real) -> Option<real>)
    ensures Calculate(body, parseFloat, power) == Err(MissingParameters)
        <==> Truthy(body) && body.Object? && !ParametersPresent(body)
  {
  }

  /**
    Presence of `a` and `b` is `is None`: any non-null operand, including the
    falsy `0`, `false` and `""`, counts as present.
   */
  lemma PresenceIsNotTruthiness(a: Value, b: Value, operation: Value, parseFloat: string -> Option<real>, power: (real, real) -> Option<real>)
    requires !a.Null? && !b.Null? && Truthy(operation)
    ensures Calculate(Request(a, b, operation), parseFloat, power) != Err(MissingParameters)
    ensures Calculate(Request(Number(0.0), Bool(false), Str("add")), parseFloat, power) == Ok(0.0)
  {
    RequestFields(a, b, operation);
    RequestReachesDispatch(Number(0.0), Bool(false), Str("add"), parseFloat, power);
  }

  /**
    The presence check precedes coercion and dispatch: a falsy `operation`
    is reported as missing whatever `a` and `b` are, and `{a: 5}` alone is
    reported as missing parameters.
   */
  lemma PresenceCheckedBeforeCoercion(a: Value, b: Value, operation: Value, parseFloat: string -> Option<real>, power: (real, real) -> Option<real>)
    requires !Truthy(operation)
    ensures Calculate(Request(a, b, operation), parseFloat, power) == Err(MissingParameters)
    ensures Calculate(Object(map["a" := Number(5.0)]), parseFloat, power) == Err(MissingParameters)
  {
    RequestFields(a, b, operation);
    OnlyAFields();
  }

  // ---------------------------------------------------------------------------
  // Step 3: numeric coercion.

  /**
    The coercion rules of `float()`: numbers as themselves, booleans as 1 and
    0, strings only when they parse, lists, dicts and null never.
   */
  lemma CoercionRules(v: Value, parseFloat: string -> Option<real>)
    ensures ToFloat(v, parseFloat).Some? <==> v.Number? || v.Bool? || (v.Str? && parseFloat(v.s).Some?)
    ensures v.Number? ==> ToFloat(v, parseFloat) == Some(v.n)
    ensures v == Bool(true) ==> ToFloat(v, parseFloat) == Some(1.0)
    ensures v == Bool(false) ==> ToFloat(v, parseFloat) == Some(0.0)
    ensures v.Str? ==> ToFloat(v, parseFloat) == parseFloat(v.s)
  {
  }

  /**
    A type error is reported exactly when the presence check passes and `a`
    or `b` does not convert, whatever the operation is.
   */
  lemma InvalidTypeExactly(body: Value, parseFloat: string -> Option<real>, power: (real, real) -> Option<real>)
    ensures Calculate(body, parseFloat, power) == Err(InvalidType)
        <==> ParametersPresent(body) && !OperandsNumeric(body, parseFloat)
  {
  }

  /**
    Coercion precedes dispatch: a non-numeric `a` next to a bogus operation
    is a type error, not an unsupported operation.
   */
  lemma CoercionCheckedBeforeDispatch(parseFloat: string -> Option<real>, power: (real, real) -> Option<real>)
    requires parseFloat("invalid").None?
    ensures Calculate(Request(Str("invalid"), Number(3.0), Str("bogus")), parseFloat, power) == Err(InvalidType)
    ensures Calculate(Request(Array([Number(1.0)]), Number(3.0), Str("bogus")), parseFloat, power) == Err(InvalidType)
  {
    RequestFields(Str("invalid"), Number(3.0), Str("bogus"));
    RequestFields(Array([Number(1.0)]), Number(3.0), Str("bogus"));
  }

  // ---------------------------------------------------------------------------
  // Step 4: dispatch.

  /**
    Division by zero is reported exactly for `divide` with a coerced `b` of
    zero; no other operator rejects a zero `b`.
   */
  lemma DivisionByZeroExactly(body: Value, parseFloat: string -> Option<real>, power: (real, real) -> Option<real>)
    ensures Calculate(body, parseFloat, power) == Err(DivisionByZero)
        <==> && OperandsNumeric(body, parseFloat)
             && Field(body, "operation") == Str("divide")
             && ToFloat(Field(body, "b"), parseFloat) == Some(0.0)
  {
  }

  /** `divide` by a zero `b` is rejected for every convertible `a`. */
  lemma DivisionByZeroForEveryDividend(a: Value, b: Value, parseFloat: string -> Option<real>, power: (real, real) -> Option<real>)
    requires ToFloat(a, parseFloat).Some? && ToFloat(b, parseFloat) == Some(0.0)
    ensures Calculate(Request(a, b, Str("divide")), parseFloat, power) == Err(DivisionByZero)
    ensures Status(Calculate(Request(a, b, Str("divide")), parseFloat, power)) == 400
  {
    RequestReachesDispatch(a, b, Str("divide"), parseFloat, power);
  }

  /**
    An unsupported operation is reported exactly when coercion succeeds and
    `operation` is not one of the five names.
   */
  lemma UnsupportedOperationExactly(body: Value, parseFloat: string -> Option<real>, power: (real, real) -> Option<real>)
    ensures Calculate(body, parseFloat, power) == Err(UnsupportedOperation)
        <==> OperandsNumeric(body, parseFloat) && !IsSupported(Field(body, "operation"))
  {
  }

  /** The match is case-sensitive, and truthy non-strings are unsupported. */
  lemma OperationMatchIsExact(parseFloat: string -> Option<real>, power: (real, real) -> Option<real>)
    ensures Calculate(Request(Number(5.0), Number(3.0), Str("Add")), parseFloat, power) == Err(UnsupportedOperation)
    ensures Calculate(Request(Number(5.0), Number(3.0), Str("invalid")), parseFloat, power) == Err(UnsupportedOperation)
    ensures Calculate(Request(Number(5.0), Number(3.0), Bool(true)), parseFloat, power) == Err(UnsupportedOperation)
    ensures Calculate(Request(Number(5.0), Number(3.0), Number(1.0)), parseFloat, power) == Err(UnsupportedOperation)
  {
    RequestReachesDispatch(Number(5.0), Number(3.0), Str("Add"), parseFloat, power);
    RequestReachesDispatch(Number(5.0), Number(3.0), Str("invalid"), parseFloat, power);
    RequestReachesDispatch(Number(5.0), Number(3.0), Bool(true), parseFloat, power);
    RequestReachesDispatch(Number(5.0), Number(3.0), Number(1.0), parseFloat, power);
  }

  /** On success the result is that of the named operator on the coerced operands. */
  lemma SuccessResults(body: Value, parseFloat: string -> Option<real>, power: (real, real) -> Option<real>)
    requires OperandsNumeric(body, parseFloat)
    ensures
      var x := ToFloat(Field(body, "a"), parseFloat).value;
      var y := ToFloat(Field(body, "b"), parseFloat).value;
      var op := Field(body, "operation");
      var r := Calculate(body, parseFloat, power);
      && (op == Str("add") ==> r == Ok(x + y))
      && (op == Str("subtract") ==> r == Ok(x - y))
      && (op == Str("multiply") ==> r == Ok(x * y))
      && (op == Str("divide") && y != 0.0 ==> r == Ok(x / y))
      && (op == Str("power") && power(x, y).Some? ==> r == Ok(power(x, y).value))
      && (r.Ok? ==> Status(r) == 200)
  {
  }

  /** Internal errors come only from a non-object body or from `power` faulting. */
  lemma InternalErrorExactly(body: Value, parseFloat: string -> Option<real>, power: (real, real) -> Option<real>)
    ensures Calculate(body, parseFloat, power) == Err(InternalError)
        <==> || (Truthy(body) && !body.Object?)
             || (&& OperandsNumeric(body, parseFloat)
                 && Field(body, "operation") == Str("power")
                 && power(ToFloat(Field(body, "a"), parseFloat).value, ToFloat(Field(body, "b"), parseFloat).value).None?)
  {
  }

  // ---------------------------------------------------------------------------
  // The handler as a whole.

  /**
    Only `a`, `b` and `operation` matter: two non-empty object bodies that
    agree on those fields get the same outcome, whatever else they hold.
   */
  lemma OnlyRequestFieldsMatter(body1: Value, body2: Value, parseFloat: string -> Option<real>, power: (real, real) -> Option<real>)
    requires body1.Object? && body2.Object? && Truthy(body1) && Truthy(body2)
    requires Field(body1, "a") == Field(body2, "a")
    requires Field(body1, "b") == Field(body2, "b")
    requires Field(body1, "operation") == Field(body2, "operation")
    ensures Calculate(body1, parseFloat, power) == Calculate(body2, parseFloat, power)
  {
  }

  /**
    No outcome is dead: every error kind and every numeric result is produced
    by some request, whatever `float()` and `**` do.
   */
  lemma EveryOutcomeIsReachable(o: Outcome, parseFloat: string -> Option<real>, power: (real, real) -> Option<real>)
    ensures exists body :: Calculate(body, parseFloat, power) == o
  {
    match o
    case Ok(v) =>
      RequestReachesDispatch(Number(v), Number(0.0), Str("add"), parseFloat, power);
      assert Calculate(Request(Number(v), Number(0.0), Str("add")), parseFloat, power) == Ok(v + 0.0);
    case Err(InvalidRequest) =>
      assert Calculate(Null, parseFloat, power) == o;
    case Err(MissingParameters) =>
      OnlyAFields();
      assert Calculate(Object(map["a" := Number(5.0)]), parseFloat, power) == o;
    case Err(InvalidType) =>
      RequestFields(Array([]), Number(0.0), Str("add"));
      assert Calculate(Request(Array([]), Number(0.0), Str("add")), parseFloat, power) == o;
    case Err(DivisionByZero) =>
      RequestReachesDispatch(Number(1.0), Number(0.0), Str("divide"), parseFloat, power);
      assert Calculate(Request(Number(1.0), Number(0.0), Str("divide")), parseFloat, power) == o;
    case Err(UnsupportedOperation) =>
      RequestReachesDispatch(Number(1.0), Number(1.0), Str("modulo"), parseFloat, power);
      assert Calculate(Request(Number(1.0), Number(1.0), Str("modulo")), parseFloat, power) == o;
    case Err(InternalError) =>
      assert Calculate(Array([Null]), parseFloat, power) == o;
  }

  /** The error strings carry the phrases clients look for. */
  lemma ErrorMessagesMentionTheirCause()
    ensures Mentions(ErrorMessage(InvalidRequest), "No JSON data provided")
    ensures Mentions(ErrorMessage(MissingParameters), "Missing required parameters")
    ensures Mentions(ErrorMessage(InvalidType), "must be numbers")
    ensures Mentions(ErrorMessage(DivisionByZero), "Cannot divide by zero")
    ensures Mentions(ErrorMessage(UnsupportedOperation), "Invalid operation")
    ensures Mentions(ErrorMessage(InternalError), "Internal server error")
  {
    assert "No JSON data provided" <= ErrorMessage(InvalidRequest)[0..];
    assert "Missing required parameters" <= ErrorMessage(MissingParameters)[0..];
    assert "must be numbers" <= ErrorMessage(InvalidType)[19..];
    assert "Cannot divide by zero" <= ErrorMessage(DivisionByZero)[0..];
    assert "Invalid operation" <= "Invalid operation. Use: ";
    assert "Invalid operation" <= ErrorMessage(UnsupportedOperation)[0..];
    assert "Internal server error" <= ErrorMessage(InternalError)[0..];
  }

  /**
    Only the internal error carries the "Internal server error: " prefix, so
    a 500 body can be told from the 400 bodies by its message alone.
   */
  lemma OnlyInternalErrorHasServerErrorPrefix(k: ErrorKind)
    ensures k == InternalError <==> "Internal server error: " <= ErrorMessage(k)
  {
    var prefix := "Internal server error: ";
    match k
    case InvalidRequest => assert ErrorMessage(k)[0] != prefix[0];
    case MissingParameters =>
      var m := "Missing required parameters: a, b, operation";
      assert ErrorMessage(k) == m && m[0] == 'M';
    case InvalidType => assert ErrorMessage(k)[0] != prefix[0];
    case DivisionByZero => assert ErrorMessage(k)[0] != prefix[0];
    case UnsupportedOperation => assert ErrorMessage(k)[2] != prefix[2];
    case InternalError =>
  }

  /**
    A request whose operands convert and whose operation is truthy reaches
    the dispatch with the converted operands.
   */
  lemma RequestReachesDispatch(a: Value, b: Value, operation: Value, parseFloat: string -> Option<real>, power: (real, real) -> Option<real>)
    requires ToFloat(a, parseFloat).Some? && ToFloat(b, parseFloat).Some? && Truthy(operation)
    ensures Calculate(Request(a, b, operation), parseFloat, power)
         == Dispatch(operation, ToFloat(a, parseFloat).value, ToFloat(b, parseFloat).value, power)
  {
    RequestFields(a, b, operation);
  }

  /** The request/response pairs of the endpoint's unit tests in test_app.py. */
  lemma Scenarios(parseFloat: string -> Option<real>, power: (real, real) -> Option<real>)
    requires power(2.0, 3.0) == Some(8.0)
    ensures Calculate(Request(Number(5.0), Number(3.0), Str("add")), parseFloat, power) == Ok(8.0)
    ensures Calculate(Request(Number(10.0), Number(4.0), Str("subtract")), parseFloat, power) == Ok(6.0)
    ensures Calculate(Request(Number(6.0), Number(7.0), Str("multiply")), parseFloat, power) == Ok(42.0)
    ensures Calculate(Request(Number(15.0), Number(3.0), Str("divide")), parseFloat, power) == Ok(5.0)
    ensures Calculate(Request(Number(10.0), Number(0.0), Str("divide")), parseFloat, power) == Err(DivisionByZero)
    ensures Calculate(Request(Number(2.0), Number(3.0), Str("power")), parseFloat, power) == Ok(8.0)
  {
    RequestReachesDispatch(Number(5.0), Number(3.0), Str("add"), parseFloat, power);
    RequestReachesDispatch(Number(10.0), Number(4.0), Str("subtract"), parseFloat, power);
    RequestReachesDispatch(Number(6.0), Number(7.0), Str("multiply"), parseFloat, power);
    RequestReachesDispatch(Number(15.0), Number(3.0), Str("divide"), parseFloat, power);
    RequestReachesDispatch(Number(10.0), Number(0.0), Str("divide"), parseFloat, power);
    RequestReachesDispatch(Number(2.0), Number(3.0), Str("power"), parseFloat, power);
  }
}
