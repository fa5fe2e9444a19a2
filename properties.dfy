/**
 * What the configlinter rule promises, stated over the model in
 * configlinter.dfy: per call (which calls are ignored, which are reported
 * and where), per pass (order, at most one diagnostic per call, no
 * rewriting of earlier diagnostics, determinism) and per schema (a larger
 * schema never adds diagnostics).
 */
module ConfigLinterProperties {
  import opened Wrappers
  import opened GoAst
  import opened ConfigLinter

  // ---------------------------------------------------------------------
  // One call
  // ---------------------------------------------------------------------

  /**
   * A call that is not a configuration accessor is silent, and only its
   * callee decides that: its arguments, the schema and the unquoting are
   * not looked at.
   */
  lemma NonConfigCallIgnored(call: CallExpr, other: CallExpr,
                             schema: set<string>, otherSchema: set<string>,
                             unquote: Unquoter, otherUnquote: Unquoter)
    requires !IsConfigCall(call)
    requires other.fun == call.fun
    ensures Finding(call, schema, unquote) == None
    ensures Finding(other, otherSchema, otherUnquote) == None
  {
  }

  /** A receiver other than `config` or `viper` is never inspected, whatever the method. */
  lemma UnrecognisedReceiverIgnored(call: CallExpr, schema: set<string>, unquote: Unquoter)
    requires call.fun.Selector? && call.fun.x.Name?
    requires call.fun.x.id.name != "config" && call.fun.x.id.name != "viper"
    ensures Finding(call, schema, unquote) == None
  {
  }

  /** An accessor called with no argument at all is left to the compiler. */
  lemma NoArgumentIgnored(call: CallExpr, schema: set<string>, unquote: Unquoter)
    requires |call.args| == 0
    ensures Finding(call, schema, unquote) == None
  {
  }

  /**
   * When no literal key can be extracted from the first argument, exactly
   * one diagnostic is reported, on the argument's span, with the fixed
   * message; the schema plays no part.
   */
  lemma NonLiteralKeyReported(call: CallExpr, schema: set<string>, otherSchema: set<string>, unquote: Unquoter)
    requires IsConfigCall(call) && |call.args| > 0
    requires ExtractStringLiteral(call.args[0], unquote).1 == None
    ensures Finding(call, schema, unquote)
            == Some(Diagnostic(call.args[0].Pos(), call.args[0].End(), NonLiteralMessage))
    ensures Finding(call, schema, unquote) == Finding(call, otherSchema, unquote)
  {
  }

  /**
   * A first argument that is not a STRING literal (an identifier, a
   * selector, a call, a number, any other expression) is reported as
   * non-literal, whatever its value would be at run time.
   */
  lemma NonStringArgumentReported(call: CallExpr, schema: set<string>, unquote: Unquoter)
    requires IsConfigCall(call) && |call.args| > 0
    requires !(call.args[0].Lit? && call.args[0].lit.kind == STRING)
    ensures Finding(call, schema, unquote)
            == Some(Diagnostic(call.args[0].Pos(), call.args[0].End(), NonLiteralMessage))
  {
  }

  /**
   * A STRING literal that strconv.Unquote rejects is reported with the
   * non-literal message too: the code does not skip it.
   */
  lemma UnquoteFailureReported(call: CallExpr, schema: set<string>, unquote: Unquoter)
    requires IsConfigCall(call) && |call.args| > 0
    requires call.args[0].Lit? && call.args[0].lit.kind == STRING
    requires unquote(call.args[0].lit.value) == None
    ensures Finding(call, schema, unquote)
            == Some(Diagnostic(call.args[0].Pos(), call.args[0].End(), NonLiteralMessage))
  {
  }

  /** A literal key the schema defines is accepted silently. */
  lemma DefinedKeySilent(call: CallExpr, lit: BasicLit, key: string, schema: set<string>, unquote: Unquoter)
    requires IsConfigCall(call) && |call.args| > 0 && call.args[0] == Lit(lit)
    requires lit.kind == STRING && unquote(lit.value) == Some(key)
    requires key in schema
    ensures Finding(call, schema, unquote) == None
  {
  }

  /**
   * A literal key the schema lacks is reported once, on the literal's own
   * span, with a message that quotes the unquoted key.
   */
  lemma UndefinedKeyReported(call: CallExpr, lit: BasicLit, key: string, schema: set<string>, unquote: Unquoter)
    requires IsConfigCall(call) && |call.args| > 0 && call.args[0] == Lit(lit)
    requires lit.kind == STRING && unquote(lit.value) == Some(key)
    requires key !in schema
    ensures Finding(call, schema, unquote)
            == Some(Diagnostic(lit.valuePos, lit.valueEnd, UndefinedKeyMessage(key)))
  {
  }

  /**
   * The whole decision in one statement: a call is reported exactly when
   * it is a configuration accessor with an argument whose key is either not
   * extractable or not in the schema; a report always spans the first
   * argument, and its message tells the two cases apart.
   */
  lemma FindingCharacterised(call: CallExpr, schema: set<string>, unquote: Unquoter)
    ensures Finding(call, schema, unquote).Some?
            <==> IsConfigCall(call) && |call.args| > 0
                 && (ExtractStringLiteral(call.args[0], unquote).1.None?
                     || ExtractStringLiteral(call.args[0], unquote).0 !in schema)
    ensures Finding(call, schema, unquote).Some? ==>
              var d := Finding(call, schema, unquote).value;
              d.pos == call.args[0].Pos() && d.end == call.args[0].End()
              && (d.message == NonLiteralMessage
                  <==> ExtractStringLiteral(call.args[0], unquote).1.None?)
              && (d.message != NonLiteralMessage ==>
                    d.message == UndefinedKeyMessage(ExtractStringLiteral(call.args[0], unquote).0))
  {
    if Finding(call, schema, unquote).Some? {
      var (key, lit) := ExtractStringLiteral(call.args[0], unquote);
      if lit.Some? {
        MessagesDistinct(key);
      }
    }
  }

  // ---------------------------------------------------------------------
  // Messages
  // ---------------------------------------------------------------------

  /** The two messages never coincide, so a reader can tell the cases apart. */
  lemma MessagesDistinct(key: string)
    ensures UndefinedKeyMessage(key) != NonLiteralMessage
  {
    // They end differently: "... in config" against "... static analysis".
    var m := UndefinedKeyMessage(key);
    assert m[|m| - 1] == UndefinedSuffix[|UndefinedSuffix| - 1] == 'g';
    assert NonLiteralMessage[|NonLiteralMessage| - 1] == 's';
  }

  /** The undefined-key message determines the key it was built from. */
  lemma UndefinedKeyMessageInjective(key: string, otherKey: string)
    requires UndefinedKeyMessage(key) == UndefinedKeyMessage(otherKey)
    ensures key == otherKey
  {
  }

  // ---------------------------------------------------------------------
  // The schema
  // ---------------------------------------------------------------------

  /**
   * Defining more keys never adds a diagnostic: whatever is still reported
   * against the larger schema was reported, identically, against the
   * smaller one.
   */
  lemma LargerSchemaReportsLess(call: CallExpr, schema: set<string>, larger: set<string>, unquote: Unquoter)
    requires schema <= larger
    ensures Finding(call, larger, unquote).Some? ==>
              Finding(call, schema, unquote) == Finding(call, larger, unquote)
    ensures Finding(call, schema, unquote).None? ==> Finding(call, larger, unquote).None?
  {
  }

  /** Over a whole pass, a larger schema yields no more diagnostics. */
  lemma {:induction false} LargerSchemaFewerDiagnostics(calls: seq<CallExpr>, schema: set<string>,
                                                       larger: set<string>, unquote: Unquoter)
    requires schema <= larger
    ensures |Diagnostics(calls, larger, unquote)| <= |Diagnostics(calls, schema, unquote)|
  {
    if calls != [] {
      LargerSchemaReportsLess(calls[0], schema, larger, unquote);
      LargerSchemaFewerDiagnostics(calls[1..], schema, larger, unquote);
    }
  }

  /**
   * With an empty schema (the configuration file could not be read) every
   * accessor call whose literal key unquotes is reported as undefined.
   */
  lemma EmptySchemaReportsEveryKey(call: CallExpr, lit: BasicLit, key: string, unquote: Unquoter)
    requires IsConfigCall(call) && |call.args| > 0 && call.args[0] == Lit(lit)
    requires lit.kind == STRING && unquote(lit.value) == Some(key)
    ensures Finding(call, {}, unquote)
            == Some(Diagnostic(lit.valuePos, lit.valueEnd, UndefinedKeyMessage(key)))
  {
  }

  // ---------------------------------------------------------------------
  // A whole pass
  // ---------------------------------------------------------------------

  /**
   * Diagnostics are appended, never rewritten: the diagnostics of the first
   * i calls are a prefix of those of all calls.
   */
  lemma DiagnosticsPrefix(calls: seq<CallExpr>, i: nat, schema: set<string>, unquote: Unquoter)
    requires i <= |calls|
    ensures Diagnostics(calls[..i], schema, unquote) <= Diagnostics(calls, schema, unquote)
  {
    assert calls == calls[..i] + calls[i..];
    DiagnosticsAppend(calls[..i], calls[i..], schema, unquote);
  }

  /**
   * The order of the diagnostics is the visiting order: the finding of the
   * i-th call sits right after the diagnostics of the calls before it.
   */
  lemma FindingPlacedInVisitingOrder(calls: seq<CallExpr>, i: nat, schema: set<string>, unquote: Unquoter)
    requires i < |calls|
    requires Finding(calls[i], schema, unquote).Some?
    ensures |Diagnostics(calls[..i], schema, unquote)| < |Diagnostics(calls, schema, unquote)|
    ensures Diagnostics(calls, schema, unquote)[|Diagnostics(calls[..i], schema, unquote)|]
            == Finding(calls[i], schema, unquote).value
  {
    assert calls == calls[..i] + ([calls[i]] + calls[i + 1..]);
    DiagnosticsAppend(calls[..i], [calls[i]] + calls[i + 1..], schema, unquote);
    DiagnosticsAppend([calls[i]], calls[i + 1..], schema, unquote);
    assert [calls[i]][1..] == [];
  }

  /** Every diagnostic is the finding of one of the visited calls. */
  lemma {:induction false} DiagnosticComesFromCall(calls: seq<CallExpr>, k: nat, schema: set<string>, unquote: Unquoter)
    requires k < |Diagnostics(calls, schema, unquote)|
    ensures exists i :: 0 <= i < |calls| && Finding(calls[i], schema, unquote) == Some(Diagnostics(calls, schema, unquote)[k])
  {
    var head := Finding(calls[0], schema, unquote).ToSeq();
    if k < |head| {
      assert Finding(calls[0], schema, unquote) == Some(Diagnostics(calls, schema, unquote)[k]);
    } else {
      DiagnosticComesFromCall(calls[1..], k - |head|, schema, unquote);
      var i :| 0 <= i < |calls[1..]|
               && Finding(calls[1..][i], schema, unquote) == Some(Diagnostics(calls[1..], schema, unquote)[k - |head|]);
      assert Finding(calls[i + 1], schema, unquote) == Some(Diagnostics(calls, schema, unquote)[k]);
    }
  }

  /** Running the rule twice over the same calls and schema gives the same diagnostics. */
  method RerunAgrees(calls: seq<CallExpr>, schema: set<string>, unquote: Unquoter)
    returns (first: seq<Diagnostic>, second: seq<Diagnostic>)
    ensures first == second
    ensures |first| <= |calls|
  {
    first := Run(calls, schema, unquote);
    second := Run(calls, schema, unquote);
  }

  // ---------------------------------------------------------------------
  // Worked examples
  // ---------------------------------------------------------------------

  /** `config.GetString(<literal>)`: the callee at offset 1, the literal at 18..31. */
  function ConfigGetString(literal: string): CallExpr
  {
    CallExpr(Selector(Name(Ident(1, "config", 7)), Ident(8, "GetString", 17)),
             17, [Lit(BasicLit(18, STRING, literal, 31))], 31)
  }

  /**
   * Schema {"server": {"port": 8080}} flattens to the key server.port: the
   * call with that key is silent, the call with server.host is reported on
   * the literal.
   */
  lemma ScenarioDefinedAndUndefinedKey(unquote: Unquoter)
    requires unquote("\"server.port\"") == Some("server.port")
    requires unquote("\"server.host\"") == Some("server.host")
    ensures Finding(ConfigGetString("\"server.port\""), {"server.port"}, unquote) == None
    ensures Finding(ConfigGetString("\"server.host\""), {"server.port"}, unquote)
            == Some(Diagnostic(18, 31, UndefinedKeyMessage("server.host")))
    ensures UndefinedKeyMessage("server.host")
            == "config key " + "\"" + "server.host" + "\"" + " is not defined in config"
  {
  }

  /** `viper.GetBool(someVar)` is reported on `someVar`, whatever the schema holds. */
  lemma ScenarioVariableKey(schema: set<string>, unquote: Unquoter)
    ensures Finding(CallExpr(Selector(Name(Ident(1, "viper", 6)), Ident(7, "GetBool", 14)),
                             14, [Name(Ident(15, "someVar", 22))], 22), schema, unquote)
            == Some(Diagnostic(15, 22, NonLiteralMessage))
  {
  }

  /** `logger.GetString("x")` is not a configuration call and is ignored. */
  lemma ScenarioOtherReceiver(schema: set<string>, unquote: Unquoter)
    ensures Finding(CallExpr(Selector(Name(Ident(1, "logger", 7)), Ident(8, "GetString", 17)),
                             17, [Lit(BasicLit(18, STRING, "\"x\"", 21))], 21), schema, unquote)
            == None
  {
  }
}
