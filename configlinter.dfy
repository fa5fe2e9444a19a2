/**
 * The configlinter inspection rule: every call `config.Get*("key")` or
 * `viper.Get*("key")` must name a key that the configuration schema
 * defines.
 *
 * The schema is the set of dotted keys the configuration library loaded at
 * start-up; `viper.IsSet(key)` becomes `key in schema`. Go's
 * `strconv.Unquote` is a library routine whose body is not part of this
 * model, so it is passed in as a partial function `unquote` (None where Go
 * returns an error).
 */
module ConfigLinter {
  import opened Wrappers
  import opened GoAst

  /** strconv.Unquote: the value of a Go literal's source text, or None on a syntax error. */
  type Unquoter = string -> Option<string>

  /** The identifiers the rule treats as the configuration package. */
  const ReceiverNames: set<string> := {"config", "viper"}

  /** The accessor methods whose first argument is a configuration key. */
  const AccessorNames: set<string> := {"GetString", "GetBool", "GetStringSlice"}

  /** The message of a key argument that is not a usable string literal. */
  const NonLiteralMessage: string := "config key should be a string literal for static analysis"

  /** An analysis.Diagnostic as the rule fills it in: a source span and a message. */
  datatype Diagnostic = Diagnostic(pos: TokenPos, end: TokenPos, message: string)

  predicate IsAccessorName(name: string)
  {
    name == "GetString" || name == "GetBool" || name == "GetStringSlice"
  }

  /**
   * isConfigCall: the call is `<ident>.<sel>(...)` with a receiver named
   * `config` or `viper` and a recognised accessor. Purely by name: no type
   * or import resolution.
   */
  function IsConfigCall(call: CallExpr): (r: bool)
    ensures r <==> call.fun.Selector? && call.fun.x.Name?
                   && call.fun.x.id.name in ReceiverNames
                   && call.fun.sel.name in AccessorNames
  {
    match call.fun
    case Selector(Name(ident), sel) =>
      (ident.name == "config" && IsAccessorName(sel.name))
      || (ident.name == "viper" && IsAccessorName(sel.name))
    case _ => false
  }

  /**
   * extractStringLiteral: the unquoted key and the literal node itself when
   * `expr` is a STRING BasicLit that unquotes; ("", nil) otherwise.
   */
  function ExtractStringLiteral(expr: Expr, unquote: Unquoter): (r: (string, Option<BasicLit>))
    ensures r.1.Some? <==> expr.Lit? && expr.lit.kind == STRING && unquote(expr.lit.value).Some?
    ensures r.1.Some? ==> r.1.value == expr.lit && unquote(expr.lit.value) == Some(r.0)
    ensures r.1.None? ==> r.0 == ""
  {
    if !expr.Lit? || expr.lit.kind != STRING then ("", None)
    else
      match unquote(expr.lit.value)
      case None => ("", None)
      case Some(unquoted) => (unquoted, Some(expr.lit))
  }

  /** The text before and after the key in the undefined-key message. */
  const UndefinedPrefix: string := "config key " + "\""
  const UndefinedSuffix: string := "\"" + " is not defined in config"

  /** The message of a literal key the schema does not define; it quotes the key. */
  function UndefinedKeyMessage(key: string): (m: string)
    ensures |m| == |UndefinedPrefix| + |key| + |UndefinedSuffix|
    ensures m[..|UndefinedPrefix|] == UndefinedPrefix
    ensures m[|UndefinedPrefix|..|UndefinedPrefix| + |key|] == key
    ensures m[|UndefinedPrefix| + |key|..] == UndefinedSuffix
  {
    UndefinedPrefix + key + UndefinedSuffix
  }

  /**
   * What the per-node callback of `run` reports for one call: nothing for a
   * call that is not a configuration accessor or has no argument; the
   * non-literal diagnostic on the first argument when no literal key can be
   * extracted from it; the undefined-key diagnostic on the literal when the
   * schema lacks the key; nothing otherwise.
   */
  function Finding(call: CallExpr, schema: set<string>, unquote: Unquoter): (d: Option<Diagnostic>)
    ensures d.Some? ==> IsConfigCall(call) && |call.args| > 0
    ensures d.Some? ==> d.value.pos == call.args[0].Pos() && d.value.end == call.args[0].End()
  {
    if IsConfigCall(call) && |call.args| > 0 then
      var arg := call.args[0];
      match ExtractStringLiteral(arg, unquote)
      case (_, None) => Some(Diagnostic(arg.Pos(), arg.End(), NonLiteralMessage))
      case (key, Some(lit)) =>
        if key in schema then None
        else Some(Diagnostic(lit.valuePos, lit.valueEnd, UndefinedKeyMessage(key)))
    else None
  }

  /**
   * The diagnostics of a whole pass: each call's finding, in visiting order.
   * Each call contributes at most one diagnostic.
   */
  function Diagnostics(calls: seq<CallExpr>, schema: set<string>, unquote: Unquoter): (r: seq<Diagnostic>)
    ensures |r| <= |calls|
  {
    if calls == [] then []
    else Finding(calls[0], schema, unquote).ToSeq() + Diagnostics(calls[1..], schema, unquote)
  }

  /** The diagnostics of consecutive runs of calls are those of the runs, concatenated. */
  lemma {:induction false} DiagnosticsAppend(a: seq<CallExpr>, b: seq<CallExpr>, schema: set<string>, unquote: Unquoter)
    ensures Diagnostics(a + b, schema, unquote)
            == Diagnostics(a, schema, unquote) + Diagnostics(b, schema, unquote)
  {
    if a == [] {
      assert a + b == b;
    } else {
      assert (a + b)[1..] == a[1..] + b;
      DiagnosticsAppend(a[1..], b, schema, unquote);
    }
  }

  /**
   * The per-node callback of `run`: classify the call, extract its key and
   * report at most one diagnostic by appending it to `reported`.
   */
  method Visit(call: CallExpr, schema: set<string>, unquote: Unquoter, reported: seq<Diagnostic>)
    returns (diagnostics: seq<Diagnostic>)
    ensures diagnostics == reported + Finding(call, schema, unquote).ToSeq()
  {
    diagnostics := reported;
    if !IsConfigCall(call) {
      return;
    }
    if |call.args| == 0 {
      return;
    }
    var (key, lit) := ExtractStringLiteral(call.args[0], unquote);
    if lit.None? {
      diagnostics := diagnostics + [Diagnostic(call.args[0].Pos(), call.args[0].End(), NonLiteralMessage)];
      return;
    }
    if key !in schema {
      diagnostics := diagnostics + [Diagnostic(lit.value.valuePos, lit.value.valueEnd, UndefinedKeyMessage(key))];
    }
  }

  /**
   * run: visit the call nodes in the order the traversal yields them and
   * collect what the callback reports.
   */
  method Run(calls: seq<CallExpr>, schema: set<string>, unquote: Unquoter)
    returns (diagnostics: seq<Diagnostic>)
    ensures diagnostics == Diagnostics(calls, schema, unquote)
    ensures |diagnostics| <= |calls|
  {
    diagnostics := [];
    for i := 0 to |calls|
      invariant diagnostics == Diagnostics(calls[..i], schema, unquote)
    {
      diagnostics := Visit(calls[i], schema, unquote, diagnostics);
      assert calls[..i + 1] == calls[..i] + [calls[i]];
      DiagnosticsAppend(calls[..i], [calls[i]], schema, unquote);
    }
    assert calls[..|calls|] == calls;
  }
}
