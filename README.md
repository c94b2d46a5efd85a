# MCP dev-tools server: calculator, tool catalogue, tools/call switch and Lambda handler

This project models, in Dafny, the parts of the MCP dev-tools server that
decide something:

- **The calculator** (`src/calculator.ts`, module `Calculator` in
  `calculator.dfy`). `calculate` strips whitespace, applies the character
  whitelist and calls `evaluateExpression`, which counts parentheses in a
  loop and then evaluates the sanitised text. Both are methods proved
  against specification predicates (`Balanced`, `PassesWhitelist`). The
  guarded helpers (percentage, square root, circle, rectangle, triangle,
  angle conversion, trigonometry) are functions over reals.
- **The tool catalogue** (`tools` in `src/index.ts` and
  `lambda/handler.js`, module `Catalogue` in `catalogue.dfy`). It lists the
  23 tools with their property keys, enumerations and `required` lists.
  The two files declare the same names, keys, enumerations and required
  lists.
- **The `tools/list` and `tools/call` handlers** shared by both servers
  (module `ToolCall` in `dispatch.dfy`). The switch on the tool name is
  modelled as a table of case labels searched front to back, as a
  JavaScript `switch` does. `Dispatch` is the decision one case makes:
  reject, reply directly, or call a wrapper with given argument values
  under a heading. `Perform` runs that decision and `CallTool` is the
  `try`/`catch` around it. `Server` tells the stdio server (`src/index.ts`)
  from the Lambda one (`lambda/handler.js`); they differ only in four
  GitLab result headings.
- **The Lambda entry point** `exports.handler` (module `Lambda` in
  `lambda.dfy`). It covers the CORS preflight, the POST-only rule, the
  JSON-RPC routing of `tools/list` and `tools/call`, the `id || 1` rule,
  and the 500 response of the `catch`.

JavaScript values are the datatype `Json.Value`, with `Undefined` for a
missing property. `Json` also defines the operators the handlers use:
truthiness, `x || d`, property reads, the `'k' in args` guard and
template-literal conversion. `${v}` throws a TypeError for an object with
its own `toString` key, or for an array holding one (`Json.Convertible`).
The echo case, the `default` case and the `catch` are modelled with that
throw. Everything the code reaches outside these files is a parameter:

- the GitHub and GitLab wrappers;
- `JSON.stringify`, `JSON.parse` and number formatting;
- the clock and the text of the engine's TypeError;
- what the MCP SDK's `server.requestHandler` does (`Lambda.SdkDispatch`);
- `new Function(...)()`;
- the `Math` functions.

## Model

| member | source | states |
|---|---|---|
| Calculator.StripWhitespace | src/calculator.ts:8 | the result has no whitespace, is no longer than the input, and contains a character exactly when the input contains it and it is not whitespace |
| Calculator.StripWhitespaceCounts | src/calculator.ts:8 | each non-whitespace character occurs in the result as often as in the input, and no whitespace character occurs |
| Calculator.StripWhitespaceAppend | src/calculator.ts:8 | stripping `s + t` gives the stripped `s` followed by the stripped `t`, so the kept characters stay in order |
| Calculator.BlankIsInvalid | src/calculator.ts:8-13 | an expression of whitespace only strips to nothing and is refused by the whitelist, which needs at least one character |
| Calculator.ReplaceSelfIsIdentity | src/calculator.ts:31-33 | the two `replace` calls that substitute `*` and `/` by themselves leave the expression unchanged |
| Calculator.ReplaceAll | src/calculator.ts:31-33 | each position is replaced when it holds the pattern character and kept otherwise; the length is kept |
| Calculator.RemoveDisallowed | src/calculator.ts:45 | only whitelisted characters remain |
| Calculator.SanitizeKeepsAllowed | src/calculator.ts:45 | sanitising an expression that passed the whitelist removes nothing |
| Calculator.DepthCountsParens | src/calculator.ts:36-41 | the running counter after a text is its number of `(` minus its number of `)` |
| Calculator.BalancedIffPrefixCounts | src/calculator.ts:36-42 | the scan accepts exactly when no prefix holds more `)` than `(` and the totals are equal |
| Calculator.BalancedConcat | src/calculator.ts:36-42 | two accepted texts written one after the other are accepted |
| Calculator.BalancedWrap | src/calculator.ts:36-42 | an accepted text wrapped in parentheses is accepted |
| Calculator.ScanParentheses | src/calculator.ts:36-42 | the counting loop, which stops as soon as the counter is negative, returns true exactly for balanced texts |
| Calculator.EvaluateExpression | src/calculator.ts:29-59 | an unbalanced text fails with "Paréntesis no balanceados". A balanced one succeeds exactly when evaluating the sanitised text gives a finite number, which is then the result. Any failure of a balanced text reads "Expresión matemática inválida" |
| Calculator.PrefixedIsNotInvalid | src/calculator.ts:11-21 | a prefixed evaluator failure can never be mistaken for the whitelist rejection |
| Calculator.Calculate | src/calculator.ts:6-22 | the whitelist message is returned exactly when the stripped text fails the whitelist. Otherwise an unbalanced text gives "Error al calcular: Paréntesis no balanceados", and a balanced one succeeds exactly when its evaluation is a finite number, equal to the result; if that evaluation fails, the result is "Error al calcular: Expresión matemática inválida". Only these three failure messages exist |
| Calculator.InnerMessageNeverEscapes | src/calculator.ts:51-57 | "Resultado no es un número válido" is never among the messages `calculate` reports, bare or prefixed |
| Calculator.PercentageLaws | src/calculator.ts:67-69 | 100 % is the value, 0 % is zero, value and percentage commute, and a percentage in [0, 100] of a non-negative value lies between 0 and the value |
| Calculator.Percentage | src/calculator.ts:67-69 | the result is `percentage` hundredths of `value` |
| Calculator.SquareRoot | src/calculator.ts:76-81 | fails exactly on a negative value, with its message; otherwise the host square root |
| Calculator.CircleArea | src/calculator.ts:98-103 | fails exactly on a negative radius, with its message; otherwise a non-negative area |
| Calculator.RectangleArea | src/calculator.ts:111-116 | fails exactly when a side is negative, with its message; otherwise a non-negative area |
| Calculator.TriangleArea | src/calculator.ts:124-129 | fails exactly when a side is negative, with its message; otherwise a non-negative area |
| Calculator.TriangleIsHalfRectangle | src/calculator.ts:111-129 | triangle and rectangle fail on the same inputs, and otherwise the triangle is half the rectangle |
| Calculator.DegreesToRadians | src/calculator.ts:136-138 | the result stands to `pi` as the degrees stand to 180 |
| Calculator.RadiansToDegrees | src/calculator.ts:145-147 | the result stands to 180 as the radians stand to `pi` |
| Calculator.AngleRoundTrip | src/calculator.ts:136-147 | degrees to radians and radians to degrees are inverse to each other |
| Calculator.Trigonometric | src/calculator.ts:155-168 | fails exactly for a name other than sin, cos or tan; otherwise applies that function to the angle converted to radians |
| Catalogue.ToolNamesDistinct | lambda/handler.js:43-470 | the catalogue lists 23 tools with pairwise distinct names |
| Catalogue.RequiredKeysAreDeclared | src/index.ts:39-468 | every key a tool's schema lists as required is one of that schema's properties |
| ToolCall.ListTools | src/index.ts:484-488 | `tools/list` answers 23 tools with distinct names whose required keys are declared |
| ToolCall.CallTool | src/index.ts:491-847 | the handler throws exactly when the name cannot be converted to text. Otherwise it gives one text item, with `isError` exactly when the case threw; the text is then "Error ejecutando <name>: " followed by the thrown message |
| ToolCall.CaseOf | src/index.ts:495-496 | the switch selects a case exactly when the name is a string listed in the catalogue |
| ToolCall.Dispatch | src/index.ts:495-836 | the switch reaches `default` exactly for names that are not in the catalogue |
| ToolCall.RunCase | lambda/handler.js:485-822 | no case falls through to `default`, and only echo fails on converting an argument to text |
| ToolCall.Perform | lambda/handler.js:484-825 | the `try` ends normally exactly for a reply or a resolved wrapper call. A reply returns its own text, and a resolved call returns its payload shown under the heading. A refusal throws its own message, a rejected wrapper call throws the wrapper's message, and a failed conversion throws the TypeError |
| ToolCall.FirstMatchIsFirst | src/index.ts:495-835 | the label search finds nothing exactly when the name is not a label, and otherwise stops at its first occurrence |
| ToolCall.LabelsAreCatalogueNames | src/index.ts:495-835 | the switch's case labels are the catalogue's names, in catalogue order |
| ToolCall.FirstMatchOfDistinct | src/index.ts:495-835 | among distinct labels, the search for a label stops at that label's own place |
| ToolCall.CaseOfListedName | src/index.ts:495-835 | the name of the tool at place i selects the case at place i |
| ToolCall.CaseChecksRequiredKeys | lambda/handler.js:485-806 | each case rejects exactly when one of the keys it tests is missing |
| ToolCall.CasesCheckDeclaredKeys | lambda/handler.js:485-806 | the keys each case tests are the `required` list of its catalogue entry |
| ToolCall.ValidationFollowsSchema | src/index.ts:495-835 | a listed tool is rejected exactly when its arguments lack a key its schema requires |
| ToolCall.NoRequiredNeverRejects | src/index.ts:509-749 | a tool whose schema has no `required` list never rejects its arguments |
| ToolCall.ToolsWithoutRequiredKeys | lambda/handler.js:60-360 | get_time, github_get_user, github_get_repos, gitlab_get_user and gitlab_get_projects declare no required keys |
| ToolCall.MissingArgumentReported | src/index.ts:837-847 | a listed tool with a required key missing answers one error item "Error ejecutando <name>: <case message>" |
| ToolCall.WrapperFailureReported | src/index.ts:837-847 | a listed tool whose wrapper call rejects with a message answers one error item "Error ejecutando <name>: <that message>" |
| ToolCall.UnknownToolReported | src/index.ts:834-847 | a name outside the catalogue answers "Error ejecutando <name>: Herramienta desconocida: <name>" as an error. When the name cannot be converted to text, the handler throws instead |
| ToolCall.EchoReplies | src/index.ts:496-507 | echo answers "Echo: <message>" when `message` is present and convertible. A `message` that cannot be converted gives the TypeError as an error item, and a missing one gives the echo parameter error |
| ToolCall.GitHubStateDefaults | lambda/handler.js:545-594 | the GitHub issue and pull-request listings pass `state` on when truthy and "open" otherwise |
| ToolCall.CommitsBranchDefault | lambda/handler.js:616-630 | the commit listing passes `branch` on when truthy and "main" otherwise |
| ToolCall.FileBranchDefault | lambda/handler.js:631-645 | reading a file passes `branch` on when truthy and "main" otherwise |
| ToolCall.SearchSortDefault | lambda/handler.js:646-660 | the repository search passes `sort` on when truthy and "stars" otherwise |
| ToolCall.GitLabStateDefaults | lambda/handler.js:754-802 | the GitLab issue and merge-request listings pass `state` on when truthy and "opened" otherwise |
| ToolCall.GitHubDefaultsAreDeclared | lambda/handler.js:103-278 | each GitHub default is a value its tool's schema accepts for that key |
| ToolCall.GitLabDefaultsAreDeclared | lambda/handler.js:376-437 | "opened" is in both GitLab `state` enumerations |
| ToolCall.CasesAgreeAcrossServers | lambda/handler.js:740-822 | each case checks, defaults and calls alike on both servers; only the four GitLab headings may differ |
| ToolCall.ServersAgree | lambda/handler.js:480-837 | the same call takes the same decision on both servers, headings aside. The handler throws on one exactly when it throws on the other, and otherwise reports an error on both or on neither |
| Lambda.ResponseId | lambda/handler.js:886 | the success id is the request's id when truthy and 1 otherwise, so never falsy |
| Lambda.FailureId | lambda/handler.js:897 | the error response's id is always 1, because it is read from the unparsed body text |
| Lambda.InternalError | lambda/handler.js:890-905 | the `catch` answers 500 with the CORS headers and the JSON-RPC error of id 1, code -32603 and message "Internal error" |
| Lambda.RequestHandler | lambda/handler.js:869-872 | forwarding throws exactly when the SDK dispatch throws, or when a `tools/call` has null or missing `params` or a name that cannot be converted to text. `tools/list` gives the catalogue, and `tools/call` a result with content |
| Lambda.Handle | lambda/handler.js:840-906 | every response carries the CORS headers; the status is 200, 400, 405 or 500; 200 goes with an empty or success body, and 500 goes exactly with the JSON-RPC error of id 1, code -32603 and message "Internal error" |
| Lambda.PreflightAnswered | lambda/handler.js:848-854 | OPTIONS is answered 200 with an empty body, whatever the request holds |
| Lambda.OnlyPostServed | lambda/handler.js:856-862 | every method other than OPTIONS and POST gets 405 "Method not allowed" |
| Lambda.UnknownRpcMethodRefused | lambda/handler.js:869-879 | a parsed request naming neither JSON-RPC method gets 400 "Unknown method" |
| Lambda.FailsExactlyOnMalformedRequests | lambda/handler.js:864-905 | 500 is returned exactly for a POST in one of four cases: the body is missing, does not parse or parses to null; the SDK dispatch throws on the JSON-RPC method; a `tools/call` has null or missing `params`; or a `tools/call` name cannot be converted to text |
| Lambda.SdkFailureIsInternalError | lambda/handler.js:869-872 | if the SDK dispatch throws, `tools/list` and `tools/call` are answered 500 |
| Lambda.ListAnswersCatalogue | lambda/handler.js:869-870 | where the SDK runs the registered handler, `tools/list` answers 200 with the whole catalogue under the response id |
| Lambda.CallAnswersTool | lambda/handler.js:871-872 | where the SDK runs the registered handler, `tools/call` answers 200 with the call handler's result for the name and arguments in `params`, or 500 where that handler throws |
| Lambda.CallFailsAsOnStdio | lambda/handler.js:871-872 | where the SDK runs the registered handler, a call over HTTP is answered 200 exactly when the stdio handler gives a result for it. It then reports an error exactly when that result does |

## Left out

- Tool and property description texts of the catalogue are not modelled. They are the only part of the two `tools` arrays that differs between the files.
- `server.requestHandler(m, p)` belongs to the MCP SDK, which is not part of this model. `Lambda.SdkDispatch` leaves open whether it runs the handler registered for `m` with `p` as `request.params`, or throws.
- ListAnswersCatalogue, CallAnswersTool and CallFailsAsOnStdio hold only where the SDK runs the registered handler. SdkFailureIsInternalError covers the other reading.
- Handler registration (`setRequestHandler` with plain method names on the Lambda side) is not modelled. If registration throws while the module loads, no request reaches the handler at all; the model starts at the handler. The stdio transport, `main`, the signal handlers and `console.error` are left out too.
- On the stdio server, a call handler that throws (`ToolCall.CallTool` gives `None`) is turned into an error response by the SDK; that response is not modelled.
- The SDK's validation of `request.params` on the stdio server is not modelled. The call handler is modelled on the name and arguments it receives.
- src/github.ts and src/gitlab.ts (the wrappers) are not part of this model. A call's outcome is the host function `Host.api`, resolving with a payload or rejecting with a message.
- `JSON.stringify`, `JSON.parse`, `String(n)` for numbers and `new Date().toISOString()` are host parameters. So is the engine's text for the TypeError of a failed conversion (`Host.conversionError`).
- The evaluation `new Function('return ' + e)()` and `Math.sqrt`, `Math.pow`, `Math.PI`, `Math.sin`, `Math.cos` and `Math.tan` are host parameters.
- Calculator.Power: a pass-through to the host `pow`; it has no contract of its own.
- Calculator.Percentage, Calculator.DegreesToRadians and Calculator.RadiansToDegrees: computed over mathematical reals. IEEE-754 rounding, overflow to infinity and NaN inputs are not modelled.
- Calculator.CircleArea: requires a positive `pi`, which `Math.PI` is.
- SquareRoot: has no NaN input. In the source `NaN < 0` is false, so NaN passes the guard and yields NaN.
- CircleArea: has no NaN input. In the source a NaN radius passes the guard and gives a NaN area, which is not non-negative.
- RectangleArea: has no NaN input. In the source `calculateRectangleArea(NaN, 1)` passes the guard and returns NaN, not a non-negative area.
- TriangleArea: has no NaN input. In the source a NaN side passes the guard and gives a NaN area.
- Trigonometric: has no NaN or infinite angle. In the source these give NaN.
- `Json.HasKey`: an array or a string never holds one of the keys the tools require, so only objects pass the `'k' in args` guard.
- `ToolCall.CallResult`: `isError == false` stands for a result without the `isError` key.
- The `data` member of the 500 error (the engine's `error.message`) is not modelled.
- The response body is modelled as the value given to `JSON.stringify`, not as its text. `jsonrpc: '2.0'` is implied by the `Success` and `Failure` payloads.
- `Lambda.Event.httpMethod` is a string; an event without one is the same as any method that is not OPTIONS or POST.
- The alternate Lambda handlers, the stdio-to-HTTP proxy (`mcp-proxy.js`), the test scripts and the bundling configuration are not part of this model.
