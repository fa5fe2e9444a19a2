# configlinter, modelled in Dafny

configlinter is a Go static-analysis rule (a `go/analysis` analyzer loaded
as a golangci-lint plugin). It checks that every configuration key used
in a codebase is defined in the reference configuration. The rule visits
every call expression. It keeps the calls of the form `config.<Get>(...)`
or `viper.<Get>(...)`, where `<Get>` is `GetString`, `GetBool` or
`GetStringSlice`. For each of these it reports:

- nothing when the call has no argument;
- `config key should be a string literal for static analysis`, on the
  first argument, when that argument is not a `STRING` literal or when
  `strconv.Unquote` rejects the literal;
- `config key "<key>" is not defined in config`, on the literal, when
  viper's loaded configuration does not have the unquoted key set;
- nothing otherwise.

The model has four files:

- `wrappers.dfy`: `Option`.
- `goast.dfy`: the part of `go/ast` that the rule looks at. This is
  identifiers, selector expressions, basic literals and call expressions,
  with `Pos()` and `End()`. Every other expression kind is folded into
  `Other`, which keeps only its span.
- `configlinter.dfy`: the rule itself.
  - `IsConfigCall` and `ExtractStringLiteral` are functions.
  - `Finding` is what the callback of `run` reports for one call node.
    `Diagnostics` is what a whole pass reports.
  - `Visit` is the callback, written as a method with the source's early
    returns. `Run` is the loop over the call nodes that collects the
    diagnostics.
- `properties.dfy`: the per-call, per-schema and per-pass properties, and
  the worked examples.

Two external pieces become inputs:

- The configuration schema is a `set<string>`. `viper.IsSet(key)` is
  `key in schema`.
- `strconv.Unquote` is a parameter `unquote: string -> Option<string>`.
  `None` stands for Go's error result.

A `STRING` literal that `strconv.Unquote` rejects is not skipped.
`extractStringLiteral` returns a nil literal for it
(configlinter.go:102-105), and `run` then reports the non-literal
diagnostic on it (configlinter.go:49-56). `UnquoteFailureReported` states
this.

## Model

| member | source | states |
|---|---|---|
| ConfigLinter.IsConfigCall | configlinter.go:73-94 | true exactly when the callee is a selector whose receiver is an identifier named `config` or `viper` and whose method is `GetString`, `GetBool` or `GetStringSlice`; false for every other callee shape |
| ConfigLinter.ExtractStringLiteral | configlinter.go:97-107 | a literal is returned exactly when the expression is a `STRING` BasicLit whose text unquotes; it is then the very node given, with the unquoted key; otherwise the key is `""` and the literal is nil |
| ConfigLinter.UndefinedKeyMessage | configlinter.go:64 | the undefined-key message is `config key "`, then the key verbatim, then `" is not defined in config` |
| ConfigLinter.Finding | configlinter.go:36-66 | what the callback reports for one call node (nothing, the non-literal diagnostic, or the undefined-key diagnostic); a report is made only for a config call with at least one argument, and it always spans the first argument's Pos..End |
| ConfigLinter.Diagnostics | configlinter.go:35-67 | what one pass reports: the findings of the call nodes in visiting order; a pass never reports more diagnostics than it visits calls |
| ConfigLinter.Visit | configlinter.go:35-67 | one callback invocation appends exactly the call's finding (zero or one diagnostic) to what was reported before and leaves the earlier entries untouched |
| ConfigLinter.Run | configlinter.go:28-70 | the pass reports the findings of the call nodes concatenated in visiting order, at most one per call |
| ConfigLinter.DiagnosticsAppend | configlinter.go:35-67 | the diagnostics of two consecutive runs of call nodes are the diagnostics of each run, concatenated |
| ConfigLinterProperties.NonConfigCallIgnored | configlinter.go:39-41 | a call that is not a config call yields no diagnostic; only the callee decides this, not the arguments, the schema or the unquoting |
| ConfigLinterProperties.UnrecognisedReceiverIgnored | configlinter.go:73-94 | a selector call on a receiver other than `config` or `viper` yields no diagnostic, whatever the method |
| ConfigLinterProperties.NoArgumentIgnored | configlinter.go:44-46 | a call with no argument yields no diagnostic |
| ConfigLinterProperties.NonLiteralKeyReported | configlinter.go:48-57 | when no literal is extracted from the first argument, there is exactly one diagnostic on that argument's Pos..End with the fixed message; the schema is not consulted |
| ConfigLinterProperties.NonStringArgumentReported | configlinter.go:97-101 | a first argument that is not a `STRING` BasicLit (identifier, selector, call, number, any other expression) is reported as non-literal whatever the unquoting does |
| ConfigLinterProperties.UnquoteFailureReported | configlinter.go:102-105 | a `STRING` literal that does not unquote is reported as non-literal, not skipped |
| ConfigLinterProperties.DefinedKeySilent | configlinter.go:59-60 | a literal key the schema defines yields no diagnostic |
| ConfigLinterProperties.UndefinedKeyReported | configlinter.go:60-66 | a literal key the schema lacks yields exactly one diagnostic, spanning the literal's Pos..End, whose message quotes the unquoted key |
| ConfigLinterProperties.FindingCharacterised | configlinter.go:36-66 | a call is reported if and only if it is a config call with an argument whose key is either not extractable or undefined; a report always spans the first argument, and the message is the fixed one exactly in the non-literal case and the undefined-key message of the key otherwise |
| ConfigLinterProperties.MessagesDistinct | configlinter.go:54-64 | no undefined-key message equals the non-literal message |
| ConfigLinterProperties.UndefinedKeyMessageInjective | configlinter.go:64 | two keys with the same undefined-key message are the same key |
| ConfigLinterProperties.LargerSchemaReportsLess | configlinter.go:59-66 | defining more keys never adds a diagnostic for a call, and never changes one that is still reported |
| ConfigLinterProperties.LargerSchemaFewerDiagnostics | configlinter.go:35-67 | over a whole pass, a larger schema yields no more diagnostics |
| ConfigLinterProperties.EmptySchemaReportsEveryKey | configlinter.go:59-66 | with an empty schema (the configuration file was not read), every config call whose literal key unquotes is reported as undefined |
| ConfigLinterProperties.DiagnosticsPrefix | configlinter.go:35-67 | the diagnostics after the first i calls are a prefix of the final ones: earlier entries are never changed |
| ConfigLinterProperties.FindingPlacedInVisitingOrder | configlinter.go:35-67 | the finding of the i-th call is at the index equal to the number of diagnostics of the calls before it |
| ConfigLinterProperties.DiagnosticComesFromCall | configlinter.go:35-67 | every reported diagnostic is the finding of one of the visited calls |
| ConfigLinterProperties.RerunAgrees | configlinter.go:28-70 | running the rule twice on the same calls and schema gives the same diagnostics |
| ConfigLinterProperties.ScenarioDefinedAndUndefinedKey | configlinter.go:59-66 | with schema {server.port}, `config.GetString("server.port")` is silent and `config.GetString("server.host")` is reported on the literal with `config key "server.host" is not defined in config` |
| ConfigLinterProperties.ScenarioVariableKey | configlinter.go:48-57 | `viper.GetBool(someVar)` is reported on `someVar` with the non-literal message, whatever the schema |
| ConfigLinterProperties.ScenarioOtherReceiver | configlinter.go:73-94 | `logger.GetString("x")` yields no diagnostic |

## Left out

- `init` (configlinter.go:21-26) reads `config.json.template` through viper and ignores any error. This is file I/O in a third-party library. Its result is the `schema` parameter, which may be empty.
- viper's flattening of nested JSON into dotted keys and its exact `IsSet` semantics are inside a library that is not part of this model. `IsSet` is set membership.
- `strconv.Unquote` decodes Go's string-literal escapes. Its body is a standard-library routine that is not part of this model, so it is the partial-function parameter `unquote`. The worked examples state, as preconditions, what Go's `Unquote` gives on the literals they use.
- The `Analyzer` value, `inspector.Preorder` and `analysis.Pass` are host-tool plumbing (configlinter.go:14-19, 29-33). The traversal is the sequence of call nodes handed to `Run`, in the order `Preorder` would visit them. `pass.Report` is an append to the sequence that `Run` returns.
- plugin.go and plugin/main.go contain only plugin registration: an unused `Settings` JSON round-trip, `BuildAnalyzers` and `GetLoadMode`. They have no behaviour of their own.
- Source positions are offsets that the parser records. Each identifier and literal carries its end offset. Go computes the end as the start plus the byte length, and this model does not recompute it.
- Expression kinds that the rule does not tell apart (parenthesised, binary, index, unary expressions and so on) are all modelled as `Other`, with only their span.
