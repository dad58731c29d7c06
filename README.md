# Calculator handler of the sample Flask service

This project models the one piece of logic in the sample service: the handler
behind `POST /api/calculate`. It validates a JSON body `{a, b, operation}` and
then computes one of five operators on `a` and `b`. The handler is a chain of
guards with early returns:

1. the body check (`if not data`);
2. the presence check for `a`, `b` and `operation`;
3. the conversion of `a` and `b` with `float()`;
4. the dispatch on `operation`, where `divide` first checks for a zero divisor;
5. a catch-all `except Exception` that turns any fault into a 500.

Every request gets exactly one outcome. It is either a numeric result (200) or
one error kind: `InvalidRequest`, `MissingParameters`, `InvalidType`,
`DivisionByZero` or `UnsupportedOperation` (all 400), or `InternalError` (500).

Files:

- `wrappers.dfy` (`Wrappers`): the `Option` type.
- `json.dfy` (`Json`): the decoded JSON value the handler receives. It also
  defines Python truthiness (`not x`) and `dict.get`.
- `calculator.dfy` (`Calculator`): the error kinds, the outcome, the status
  table, the error strings, `float()` coercion, the dispatch and the whole
  handler `Calculate`. All of these are pure functions.
- `calculator_properties.dfy` (`CalculatorProperties`): lemmas saying which
  error is reported when several are possible, the coercion rules, the
  divide-by-zero guard, the results on success, and that every outcome can
  occur.

Modelling choices:

- The body is a `Json.Value`. `Null` stands for Python's `None`, the value
  `request.get_json()` returns for a JSON `null` body.
- Numbers are `real`s. Python's `float(str)` and `a ** b` are not given a
  definition. They are the function parameters `parseFloat` and `power`, and
  every lemma holds for all choices of them. A `None` from `parseFloat` means
  `float()` raised ValueError. A `None` from `power` means `**` raised, or
  produced a value that `jsonify` cannot serialise; either ends in the
  catch-all as `InternalError`.
- Three behaviours of the code (`app.py:56-71`) are more lenient or less
  uniform than a reader might expect, and the model keeps them as written:
  - A truthy body that is not an object is `InternalError` (500), not
    `InvalidRequest`. Examples are a non-empty list, a non-zero number, `true`
    and a non-empty string. `data.get` raises AttributeError on them, and the
    catch-all turns that into a 500.
  - Booleans convert to numbers: `float(True)` is `1.0` and `float(False)` is
    `0.0`. They are never `InvalidType`.
  - Presence of `a` and `b` is tested with `is None`. So `0`, `false` and `""`
    count as present.

## Model

| member | source | states |
|---|---|---|
| `Calculator.Status` | app.py:57-96 | Every outcome maps to 200, 400 or 500. 200 exactly on success, 500 exactly on an internal error, 400 for the five validation errors. |
| `Json.Truthy` | app.py:56-63 | A value is falsy in `not x` if and only if it is `None`, `False`, zero, `""`, `[]` or `{}`. |
| `Json.Get` | app.py:59-61 | `data.get(key)` is `None` if and only if the key is absent or holds `null`; otherwise it is the stored value. |
| `Calculator.ToFloat` | app.py:67-70 | `float(v)` succeeds if and only if `v` is a number, a boolean or a string that parses. A number keeps its value and a boolean becomes 0 or 1. |
| `Calculator.IsSupported` | app.py:74-86 | An operation is supported if and only if it is exactly one of the strings `add`, `subtract`, `multiply`, `divide`, `power`. |
| `Calculator.ErrorMessage` | app.py:57-96 | Every error body carries a non-empty `error` string. |
| `Calculator.Dispatch` | app.py:74-87 | Unsupported exactly when the operation is not one of the five names. Division by zero exactly for `divide` with `y == 0`. A fault exactly for `power` when `**` fails. No other error kind can come out of the dispatch. The result is x+y, x−y, x×y, x/y (for y ≠ 0) or the result of `**` for the matching operator. |
| `Calculator.Calculate` | app.py:50-96 | `InvalidRequest` exactly for a falsy body. A success only for an object body whose operation is one of the five names. |
| `CalculatorProperties.InvalidRequestExactly` | app.py:56-57 | A body is reported as an invalid request, with status 400, if and only if it is falsy. |
| `CalculatorProperties.FalsyBodies` | app.py:56-57 | `null`, `false`, `0`, `""`, `[]` and `{}` are each an invalid request. |
| `CalculatorProperties.TruthyNonObjectIsInternalError` | app.py:59-61 | A truthy body that is not an object is an internal error with status 500, not an invalid request. |
| `CalculatorProperties.MissingParametersExactly` | app.py:63-64 | Missing parameters are reported if and only if the body is a non-empty object in which `a` or `b` is missing or null, or `operation` is falsy. |
| `CalculatorProperties.PresenceIsNotTruthiness` | app.py:63 | Any non-null `a` and `b`, including `0` and `false`, pass the presence check. `{a: 0, b: false, operation: "add"}` yields 0. |
| `CalculatorProperties.PresenceCheckedBeforeCoercion` | app.py:63-71 | A falsy operation is reported as missing parameters whatever `a` and `b` are. `{a: 5}` alone is missing parameters. |
| `CalculatorProperties.CoercionRules` | app.py:67-71 | A value converts if and only if it is a number, a boolean or a string that parses. Numbers convert as themselves, `true` to 1 and `false` to 0, strings to their parse. |
| `CalculatorProperties.InvalidTypeExactly` | app.py:67-71 | A type error is reported if and only if the presence check passes and `a` or `b` does not convert, whatever the operation. |
| `CalculatorProperties.CoercionCheckedBeforeDispatch` | app.py:67-87 | A non-numeric string or a list as `a`, next to a bogus operation, is a type error, not an unsupported operation. |
| `CalculatorProperties.DivisionByZeroExactly` | app.py:80-83 | Division by zero is reported if and only if both operands convert, the operation is `divide` and the converted `b` is 0. No other operator rejects a zero `b`. |
| `CalculatorProperties.DivisionByZeroForEveryDividend` | app.py:80-82 | `divide` with a zero `b` is rejected with 400 for every convertible `a`. |
| `CalculatorProperties.UnsupportedOperationExactly` | app.py:74-87 | An unsupported operation is reported if and only if both operands convert and the operation is not one of the five names. |
| `CalculatorProperties.OperationMatchIsExact` | app.py:74-87 | `"Add"`, `"invalid"`, `true` and `1` as the operation are each unsupported: the match is exact and case-sensitive. |
| `CalculatorProperties.SuccessResults` | app.py:74-93 | Once both operands convert, the outcome is a+b, a−b, a×b, a/b (for a non-zero b) or the result of `**` for the matching operator, with status 200. |
| `CalculatorProperties.InternalErrorExactly` | app.py:59-96 | An internal error occurs if and only if the body is a truthy non-object, or `power` is requested on convertible operands and `**` fails. |
| `CalculatorProperties.OnlyRequestFieldsMatter` | app.py:59-61 | Two non-empty object bodies that agree on `a`, `b` and `operation` get the same outcome, whatever other keys they hold. |
| `CalculatorProperties.RequestReachesDispatch` | app.py:59-74 | A request whose operands convert and whose operation is truthy reaches the dispatch with the converted operands. |
| `CalculatorProperties.EveryOutcomeIsReachable` | app.py:50-96 | Each error kind, and every numeric result, is produced by some request, whatever `float()` and `**` do. |
| `CalculatorProperties.OnlyInternalErrorHasServerErrorPrefix` | app.py:57-96 | The message starts with "Internal server error: " if and only if the error is the internal error. |
| `CalculatorProperties.ErrorMessagesMentionTheirCause` | app.py:57-96 | The error strings contain "No JSON data provided", "Missing required parameters", "must be numbers", "Cannot divide by zero", "Invalid operation" and "Internal server error". |
| `CalculatorProperties.Scenarios` | test_app.py:63-115 | 5+3 is 8, 10−4 is 6, 6×7 is 42, 15/3 is 5, 10/0 is a division-by-zero error, and 2**3 is 8 when `**` gives 8 there. |

## Left out

- Flask routing, `jsonify`, and the registered 404 and 500 handlers (`app.py:99-108`). They are framework behaviour.
- `request.get_json()` raising on a wrong content type or malformed JSON. In the code that exception would also reach the catch-all as a 500. The model starts from an already decoded value.
- A request with no body. On Flask 2.1 and later, `request.get_json()` raises for it, and the catch-all turns that into a 500. Without a JSON content type the exception is BadRequest or UnsupportedMediaType, depending on the Werkzeug version; an empty body with a JSON content type fails to decode. Older Flask returned `None`, which the body check reports as an invalid request. The source does not pin a Flask version, so the model covers only decoded bodies.
- The environment-driven configuration and server startup (`app.py:13-15`, `app.py:111-122`). They are process I/O.
- `home`, `health_check` and `get_users` (`app.py:18-47`). They return constant data and contain no logic.
- The UTC timestamps (`app.py:25`, `app.py:34`, `app.py:92`). They come from the wall clock.
- The human-readable expression string of the result (`app.py:91`). It depends on Python's float formatting.
- IEEE-754 arithmetic: the model has no rounding, no infinities and no NaN. `+`, `-`, `*` and `/` are exact operations on reals.
- Calculator.ToFloat: does not model `float()` raising OverflowError on an integer too large for a double. In the code that error would escape the inner `except (ValueError, TypeError)` and become a 500. In the model a JSON number always converts.
- Python's `float(str)` grammar (whitespace, underscores, `inf`, `nan`) and the semantics of `**`. They are the abstract parameters `parseFloat` and `power`.
- Calculator.ErrorMessage: for an internal error it gives only the fixed prefix "Internal server error: ". The `str(e)` diagnostic that follows in the code depends on the Python exception text.
