/** The calculator of src/calculator.ts: the validating expression
    evaluator `calculate` / `evaluateExpression` and the guarded
    geometry, percentage, angle and trigonometry helpers.

    JavaScript numbers are modelled as mathematical reals. The dynamic
    evaluation `new Function('return ' + e)()` and the host's `Math`
    functions (`sqrt`, `pow`, `PI`, `sin`, `cos`, `tan`) are not
    interpreted: they are parameters of the members that use them. */
module Calculator {

  datatype Result<T> = Ok(value: T) | Failure(message: string)

  const InvalidExpressionMessage: string :=
    "Expresión inválida. " + "Solo se permiten números y operadores básicos (+, -, *, /, paréntesis)"
  const CalculateErrorPrefix: string := "Error al calcular: "
  const UnbalancedMessage: string := "Paréntesis no balanceados"
  const NotANumberMessage: string := "Resultado no es un número válido"
  const InvalidMathMessage: string := "Expresión matemática inválida"
  const NegativeRootMessage: string := "No se puede calcular la raíz cuadrada de un número negativo"
  const NegativeRadiusMessage: string := "El radio no puede ser negativo"
  const NegativeDimensionMessage: string := "Las dimensiones no pueden ser negativas"
  const UnknownTrigMessage: string := "Función trigonométrica no válida"

  // ---------------------------------------------------------------------
  // Characters and the two regular expressions

  /** The class `\s` of JavaScript regular expressions. */
  predicate IsWhitespace(c: char) {
    c == '\t' || c == '\n' || c == '\U{000B}' || c == '\U{000C}' || c == '\r' || c == ' '
    || c == '\U{00A0}' || c == '\U{1680}' || ('\U{2000}' <= c <= '\U{200A}')
    || c == '\U{2028}' || c == '\U{2029}' || c == '\U{202F}' || c == '\U{205F}'
    || c == '\U{3000}' || c == '\U{FEFF}'
  }

  /** The class `[0-9+\-*\/.()\s]` used by both the whitelist test and the
      sanitising `replace`. */
  predicate IsAllowed(c: char) {
    ('0' <= c <= '9') || c == '+' || c == '-' || c == '*' || c == '/'
    || c == '.' || c == '(' || c == ')' || IsWhitespace(c)
  }

  /** `s.replace(/\s+/g, '')`. */
  function StripWhitespace(s: string): (r: string)
    ensures |r| <= |s|
    ensures forall i :: 0 <= i < |r| ==> !IsWhitespace(r[i])
    ensures forall c :: c in r <==> c in s && !IsWhitespace(c)
  {
    if s == [] then []
    else (if IsWhitespace(s[0]) then [] else [s[0]]) + StripWhitespace(s[1..])
  }

  /** Every non-whitespace character is kept as often as it occurs, and
      every whitespace character is dropped. */
  lemma {:induction false} StripWhitespaceCounts(s: string)
    ensures forall c :: multiset(StripWhitespace(s))[c] == (if IsWhitespace(c) then 0 else multiset(s)[c])
  {
    if s != [] {
      StripWhitespaceCounts(s[1..]);
      assert s == [s[0]] + s[1..];
    }
  }

  /** Stripping works piece by piece, so the kept characters stay in their
      order: the result of `s + t` is the result of `s` followed by that
      of `t`. */
  lemma {:induction false} StripWhitespaceAppend(s: string, t: string)
    ensures StripWhitespace(s + t) == StripWhitespace(s) + StripWhitespace(t)
  {
    if s != [] {
      var head := if IsWhitespace(s[0]) then [] else [s[0]];
      assert (s + t)[0] == s[0] && (s + t)[1..] == s[1..] + t;
      assert StripWhitespace(s + t) == head + StripWhitespace(s[1..] + t);
      StripWhitespaceAppend(s[1..], t);
      assert StripWhitespace(s) == head + StripWhitespace(s[1..]);
    } else {
      assert s + t == t;
    }
  }

  /** `/^[0-9+\-*\/.()\s]+$/.test(s)`: at least one character, all allowed. */
  predicate PassesWhitelist(s: string) {
    |s| > 0 && forall i :: 0 <= i < |s| ==> IsAllowed(s[i])
  }

  /** `s.replace(/x/g, y)` for a one-character pattern. */
  function ReplaceAll(s: string, x: char, y: char): (r: string)
    ensures |r| == |s|
    ensures forall i :: 0 <= i < |s| ==> r[i] == (if s[i] == x then y else s[i])
  {
    if s == [] then [] else [if s[0] == x then y else s[0]] + ReplaceAll(s[1..], x, y)
  }

  /** `s.replace(/[^0-9+\-*\/.()\s]/g, '')`. */
  function RemoveDisallowed(s: string): (r: string)
    ensures forall i :: 0 <= i < |r| ==> IsAllowed(r[i])
  {
    if s == [] then []
    else (if IsAllowed(s[0]) then [s[0]] else []) + RemoveDisallowed(s[1..])
  }

  // ---------------------------------------------------------------------
  // Parenthesis balance

  function Delta(c: char): int {
    if c == '(' then 1 else if c == ')' then -1 else 0
  }

  /** The value of the running counter `parenCount` after scanning `s`. */
  function Depth(s: string): int {
    if s == [] then 0 else Depth(s[..|s| - 1]) + Delta(s[|s| - 1])
  }

  /** The scan's acceptance condition: the counter is never negative and
      ends at zero. */
  predicate Balanced(s: string) {
    (forall k :: 0 <= k <= |s| ==> Depth(s[..k]) >= 0) && Depth(s) == 0
  }

  /** The number of occurrences of `c` in `s`. */
  function Occurrences(s: string, c: char): nat {
    multiset(s)[c]
  }

  /** The counter is the number of `(` minus the number of `)`. */
  lemma {:induction false} DepthCountsParens(s: string)
    ensures Depth(s) == Occurrences(s, '(') - Occurrences(s, ')')
  {
    if s != [] {
      var init, last := s[..|s| - 1], s[|s| - 1];
      assert s == init + [last];
      assert multiset(s) == multiset(init) + multiset{last};
      DepthCountsParens(init);
    }
  }

  /** The scan accepts exactly when no prefix holds more `)` than `(`
      and the totals agree. */
  lemma BalancedIffPrefixCounts(s: string)
    ensures Balanced(s) <==>
      (forall k :: 0 <= k <= |s| ==> Occurrences(s[..k], ')') <= Occurrences(s[..k], '('))
      && Occurrences(s, '(') == Occurrences(s, ')')
  {
    forall k | 0 <= k <= |s| {
      DepthCountsParens(s[..k]);
    }
    DepthCountsParens(s);
  }

  lemma {:induction false} DepthAppend(s: string, t: string)
    ensures Depth(s + t) == Depth(s) + Depth(t)
    decreases |t|
  {
    if t != [] {
      var init := t[..|t| - 1];
      assert (s + t)[..|s + t| - 1] == s + init;
      assert (s + t)[|s + t| - 1] == t[|t| - 1];
      assert t[..|t| - 1] == init;
      DepthAppend(s, init);
    } else {
      assert s + t == s;
    }
  }

  /** Two balanced expressions written one after the other are balanced. */
  lemma BalancedConcat(s: string, t: string)
    requires Balanced(s) && Balanced(t)
    ensures Balanced(s + t)
  {
    DepthAppend(s, t);
    forall k | 0 <= k <= |s + t|
      ensures Depth((s + t)[..k]) >= 0
    {
      if k <= |s| {
        assert (s + t)[..k] == s[..k];
      } else {
        assert (s + t)[..k] == s + t[..k - |s|];
        DepthAppend(s, t[..k - |s|]);
      }
    }
  }

  /** Wrapping a balanced expression in parentheses keeps it balanced. */
  lemma BalancedWrap(s: string)
    requires Balanced(s)
    ensures Balanced("(" + s + ")")
  {
    var w := "(" + s + ")";
    DepthAppend("(" + s, ")");
    DepthAppend("(", s);
    forall k | 0 <= k <= |w|
      ensures Depth(w[..k]) >= 0
    {
      if k == 0 {
      } else if k <= |s| + 1 {
        assert w[..k] == "(" + s[..k - 1];
        DepthAppend("(", s[..k - 1]);
      } else {
        assert w[..k] == w;
      }
    }
  }

  // ---------------------------------------------------------------------
  // Dynamic evaluation and the evaluator

  /** A JavaScript number. */
  datatype Number = Finite(x: real) | NaN | PositiveInfinity | NegativeInfinity

  /** What `new Function(source)()` does: throws, returns a non-number,
      or returns a number. */
  datatype Evaluation = Raised | NonNumber | Returned(n: Number)

  predicate IsFiniteNumber(e: Evaluation) {
    e.Returned? && e.n.Finite?
  }

  /** The replacements are the identity: each pattern is replaced by itself. */
  lemma ReplaceSelfIsIdentity(s: string, c: char)
    ensures ReplaceAll(s, c, c) == s
  {
  }

  /** The sanitising `replace` removes nothing from a string of allowed
      characters. */
  lemma {:induction false} SanitizeKeepsAllowed(s: string)
    requires forall i :: 0 <= i < |s| ==> IsAllowed(s[i])
    ensures RemoveDisallowed(s) == s
  {
    if s != [] {
      SanitizeKeepsAllowed(s[1..]);
    }
  }

  /** The counting loop of `evaluateExpression`: it stops as soon as the
      counter drops below zero, and accepts when it ends at zero. */
  method ScanParentheses(expr: string) returns (balanced: bool)
    ensures balanced <==> Balanced(expr)
  {
    var parenCount := 0;
    var i := 0;
    assert expr[..0] == [];
    while i < |expr|
      invariant 0 <= i <= |expr|
      invariant parenCount == Depth(expr[..i])
      invariant forall k :: 0 <= k <= i ==> Depth(expr[..k]) >= 0
    {
      var c := expr[i];
      if c == '(' { parenCount := parenCount + 1; }
      if c == ')' { parenCount := parenCount - 1; }
      assert expr[..i + 1][..i] == expr[..i];
      if parenCount < 0 {
        assert Depth(expr[..i + 1]) < 0;
        return false;
      }
      i := i + 1;
    }
    assert expr[..i] == expr;
    return parenCount == 0;
  }

  /** `evaluateExpression`: the parenthesis scan, then evaluation of the
      sanitised text. Its failures carry the inner messages that
      `calculate` prefixes. */
  method EvaluateExpression(expression: string, run: string -> Evaluation) returns (r: Result<real>)
    ensures !Balanced(expression) ==> r == Failure(UnbalancedMessage)
    ensures Balanced(expression) ==>
      (r.Ok? <==> IsFiniteNumber(run("return " + RemoveDisallowed(expression))))
    ensures r.Ok? ==> run("return " + RemoveDisallowed(expression)) == Returned(Finite(r.value))
    ensures Balanced(expression) && r.Failure? ==> r.message == InvalidMathMessage
    ensures r.Failure? ==> r.message == UnbalancedMessage || r.message == InvalidMathMessage
  {
    var expr := ReplaceAll(ReplaceAll(expression, '*', '*'), '/', '/');
    ReplaceSelfIsIdentity(expression, '*');
    ReplaceSelfIsIdentity(expression, '/');
    assert expr == expression;

    var balanced := ScanParentheses(expr);
    if !balanced {
      return Failure(UnbalancedMessage);
    }

    var sanitizedExpr := RemoveDisallowed(expr);
    // The inner try block: a throw, a non-number or a non-finite number
    // all end in the inner catch, which replaces the message.
    var outcome := run("return " + sanitizedExpr);
    var attempt: Result<real>;
    if outcome.Raised? {
      attempt := Failure("");
    } else if !IsFiniteNumber(outcome) {
      attempt := Failure(NotANumberMessage);
    } else {
      attempt := Ok(outcome.n.x);
    }
    if attempt.Failure? {
      r := Failure(InvalidMathMessage);
    } else {
      r := attempt;
    }
  }

  /** No prefixed evaluator message reads like the whitelist rejection. */
  lemma PrefixedIsNotInvalid(message: string)
    ensures CalculateErrorPrefix + message != InvalidExpressionMessage
  {
    assert (CalculateErrorPrefix + message)[1] != InvalidExpressionMessage[1];
  }

  /** `calculate`: strip whitespace, apply the whitelist, then evaluate;
      an evaluator failure is reported as "Error al calcular: " followed
      by its message. */
  method Calculate(expression: string, run: string -> Evaluation) returns (r: Result<real>)
    ensures var clean := StripWhitespace(expression);
      && (r == Failure(InvalidExpressionMessage) <==> !PassesWhitelist(clean))
      && (PassesWhitelist(clean) && !Balanced(clean) ==>
            r == Failure(CalculateErrorPrefix + UnbalancedMessage))
      && (PassesWhitelist(clean) && Balanced(clean) ==>
            (r.Ok? <==> IsFiniteNumber(run("return " + clean))))
      && (PassesWhitelist(clean) && Balanced(clean) && r.Failure? ==>
            r == Failure(CalculateErrorPrefix + InvalidMathMessage))
      && (r.Ok? ==> PassesWhitelist(clean) && Balanced(clean)
                    && run("return " + clean) == Returned(Finite(r.value)))
    ensures r.Failure? ==>
      r.message in {InvalidExpressionMessage,
                    CalculateErrorPrefix + UnbalancedMessage,
                    CalculateErrorPrefix + InvalidMathMessage}
  {
    var cleanExpression := StripWhitespace(expression);
    if !PassesWhitelist(cleanExpression) {
      return Failure(InvalidExpressionMessage);
    }
    SanitizeKeepsAllowed(cleanExpression);
    var result := EvaluateExpression(cleanExpression, run);
    if result.Failure? {
      PrefixedIsNotInvalid(result.message);
      r := Failure(CalculateErrorPrefix + result.message);
    } else {
      r := result;
    }
  }

  /** A blank expression never reaches the evaluator: stripping leaves
      nothing, and the whitelist needs at least one character. */
  lemma {:induction false} BlankIsInvalid(expression: string)
    requires forall i :: 0 <= i < |expression| ==> IsWhitespace(expression[i])
    ensures StripWhitespace(expression) == []
    ensures !PassesWhitelist(StripWhitespace(expression))
  {
    if expression != [] {
      BlankIsInvalid(expression[1..]);
    }
  }

  /** The message of the inner `throw` ("Resultado no es un número
      válido") is always replaced before it reaches the caller. */
  lemma InnerMessageNeverEscapes(m: string)
    requires m in {InvalidExpressionMessage,
                   CalculateErrorPrefix + UnbalancedMessage,
                   CalculateErrorPrefix + InvalidMathMessage}
    ensures m != NotANumberMessage && m != CalculateErrorPrefix + NotANumberMessage
  {
  }

  // ---------------------------------------------------------------------
  // Guarded helpers

  /** `calculatePercentage`: `percentage` hundredths of `value`. */
  function Percentage(value: real, percentage: real): (r: real)
    ensures r * 100.0 == value * percentage
  {
    value * percentage / 100.0
  }

  lemma PercentageLaws(value: real, percentage: real)
    ensures Percentage(value, 100.0) == value
    ensures Percentage(value, 0.0) == 0.0
    ensures Percentage(value, percentage) == Percentage(percentage, value)
    ensures 0.0 <= value && 0.0 <= percentage <= 100.0 ==> 0.0 <= Percentage(value, percentage) <= value
  {
  }

  /** `calculateSquareRoot`, with `Math.sqrt` as `sqrt`. */
  function SquareRoot(sqrt: real -> real, value: real): (r: Result<real>)
    ensures r.Failure? <==> value < 0.0
    ensures r.Failure? ==> r.message == NegativeRootMessage
    ensures r.Ok? ==> r.value == sqrt(value)
  {
    if value < 0.0 then Failure(NegativeRootMessage) else Ok(sqrt(value))
  }

  /** `calculatePower`, with `Math.pow` as `pow`. */
  function Power(pow: (real, real) -> real, base: real, exponent: real): real {
    pow(base, exponent)
  }

  /** `calculateCircleArea`, with `Math.PI` as `pi`. */
  function CircleArea(pi: real, radius: real): (r: Result<real>)
    requires pi > 0.0
    ensures r.Failure? <==> radius < 0.0
    ensures r.Failure? ==> r.message == NegativeRadiusMessage
    ensures r.Ok? ==> r.value >= 0.0
  {
    if radius < 0.0 then Failure(NegativeRadiusMessage)
    else assert pi * radius >= 0.0; Ok(pi * radius * radius)
  }

  /** `calculateRectangleArea`. */
  function RectangleArea(width: real, height: real): (r: Result<real>)
    ensures r.Failure? <==> width < 0.0 || height < 0.0
    ensures r.Failure? ==> r.message == NegativeDimensionMessage
    ensures r.Ok? ==> r.value >= 0.0
  {
    if width < 0.0 || height < 0.0 then Failure(NegativeDimensionMessage) else Ok(width * height)
  }

  /** `calculateTriangleArea`. */
  function TriangleArea(base: real, height: real): (r: Result<real>)
    ensures r.Failure? <==> base < 0.0 || height < 0.0
    ensures r.Failure? ==> r.message == NegativeDimensionMessage
    ensures r.Ok? ==> r.value >= 0.0
  {
    if base < 0.0 || height < 0.0 then Failure(NegativeDimensionMessage) else Ok(base * height / 2.0)
  }

  /** A triangle fails on the same inputs as the rectangle with the same
      sides, and otherwise covers half of it. */
  lemma TriangleIsHalfRectangle(base: real, height: real)
    ensures TriangleArea(base, height).Failure? == RectangleArea(base, height).Failure?
    ensures TriangleArea(base, height).Ok? ==>
      TriangleArea(base, height).value * 2.0 == RectangleArea(base, height).value
  {
  }

  /** `degreesToRadians`: a half turn of 180 degrees is `pi` radians. */
  function DegreesToRadians(pi: real, degrees: real): (r: real)
    ensures r * 180.0 == degrees * pi
  {
    degrees * pi / 180.0
  }

  /** `radiansToDegrees`: `pi` radians are a half turn of 180 degrees. */
  function RadiansToDegrees(pi: real, radians: real): (r: real)
    requires pi > 0.0
    ensures r * pi == radians * 180.0
  {
    radians * 180.0 / pi
  }

  /** The two conversions are inverse to each other. */
  lemma AngleRoundTrip(pi: real, degrees: real, radians: real)
    requires pi > 0.0
    ensures RadiansToDegrees(pi, DegreesToRadians(pi, degrees)) == degrees
    ensures DegreesToRadians(pi, RadiansToDegrees(pi, radians)) == radians
  {
  }

  /** `calculateTrigonometric`: the angle is in degrees; a function name
      other than sin, cos or tan is rejected. */
  function Trigonometric(pi: real, sin: real -> real, cos: real -> real, tan: real -> real,
                         angle: real, trigFunction: string): (r: Result<real>)
    ensures r.Failure? <==> trigFunction !in {"sin", "cos", "tan"}
    ensures r.Failure? ==> r.message == UnknownTrigMessage
    ensures trigFunction == "sin" ==> r == Ok(sin(DegreesToRadians(pi, angle)))
    ensures trigFunction == "cos" ==> r == Ok(cos(DegreesToRadians(pi, angle)))
    ensures trigFunction == "tan" ==> r == Ok(tan(DegreesToRadians(pi, angle)))
  {
    var radians := DegreesToRadians(pi, angle);
    if trigFunction == "sin" then Ok(sin(radians))
    else if trigFunction == "cos" then Ok(cos(radians))
    else if trigFunction == "tan" then Ok(tan(radians))
    else Failure(UnknownTrigMessage)
  }
}
