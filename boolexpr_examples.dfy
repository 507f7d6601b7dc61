/** The behaviour the engine's own tests and documentation show, and the quirks
    of the splitter, proved on concrete expressions. */
module BoolExprExamples {
  import opened Wrappers
  import opened BoolExpr

  // ---- splitting (lexer_test.go, TestSplitString)

  /** A lone name is one part. */
  lemma SplitName(e: string)
    requires e == "a"
    ensures Split(e) == ["a"]
  {
    NameIsToken(e);
    SplitToken(e);
  }

  /** A name, an operator and a name are three parts. */
  lemma SplitPair(e: string, op: string)
    requires op == "&&" || op == "||"
    requires e == "a" + " " + op + " " + "b"
    ensures Split(e) == ["a", op, "b"]
  {
    NameIsToken("a");
    NameIsToken(op);
    SplitJoin("a", op, "b");
    assert RemoveWrappingParentheses("a") == "a" && RemoveWrappingParentheses(op) == op;
    assert RemoveWrappingParentheses("b") == "b";
  }

  /** A wrapped pair is one part, unwrapped. */
  lemma SplitWrappedPair(e: string)
    requires e == "(" + "a && b" + ")"
    ensures Split(e) == ["a && b"]
  {
    GroupIsToken("a && b");
    SplitToken(e);
    RemoveWrappingParenthesesInverse("a && b");
  }

  /** A wrapped name on the left is unwrapped. */
  lemma SplitWrappedName(e: string)
    requires e == "(" + "a" + ")" + " " + "&&" + " " + "b"
    ensures Split(e) == ["a", "&&", "b"]
  {
    GroupIsToken("a");
    NameIsToken("&&");
    SplitJoin("(" + "a" + ")", "&&", "b");
    RemoveWrappingParenthesesInverse("a");
    assert RemoveWrappingParentheses("&&") == "&&" && RemoveWrappingParentheses("b") == "b";
  }

  /** A group on the left, of either operator, is one part, unwrapped. */
  lemma SplitLeftGroupOf(e: string, op: string)
    requires op == "&&" || op == "||"
    requires e == "(" + ("a" + " " + op + " " + "b") + ")" + " " + "&&" + " " + "c"
    ensures Split(e) == ["a" + " " + op + " " + "b", "&&", "c"]
  {
    var inner := "a" + " " + op + " " + "b";
    assert NoParentheses(inner) by {
      assert forall i | 0 <= i < |inner| :: inner[i] in "a &|b";
    }
    GroupIsToken(inner);
    NameIsToken("&&");
    SplitJoin("(" + inner + ")", "&&", "c");
    RemoveWrappingParenthesesInverse(inner);
    assert RemoveWrappingParentheses("&&") == "&&" && RemoveWrappingParentheses("c") == "c";
  }

  /** A group on the right, of either operator, is the third part, unwrapped. */
  lemma SplitRightGroupOf(e: string, op: string)
    requires op == "&&" || op == "||"
    requires e == "a" + " " + "&&" + " " + ("(" + ("b" + " " + op + " " + "c") + ")")
    ensures Split(e) == ["a", "&&", "b" + " " + op + " " + "c"]
  {
    var inner := "b" + " " + op + " " + "c";
    NameIsToken("a");
    NameIsToken("&&");
    SplitJoin("a", "&&", "(" + inner + ")");
    RemoveWrappingParenthesesInverse(inner);
    assert RemoveWrappingParentheses("a") == "a" && RemoveWrappingParentheses("&&") == "&&";
  }

  /** A chain keeps its tail verbatim. */
  lemma SplitChain()
    ensures Split("a && b && c") == ["a", "&&", "b && c"]
  {
    NameIsToken("a");
    NameIsToken("&&");
    SplitJoin("a", "&&", "b && c");
    assert "a && b && c" == "a" + " " + "&&" + " " + "b && c";
  }

  /** Spaces inside parentheses never split; one pair of parentheses is removed. */
  lemma SplitNested(e: string)
    requires e == "a" + " " + "&&" + " " + "(" + "b && (c && d)" + ")"
    ensures Split(e) == ["a", "&&", "b && (c && d)"]
  {
    var a, op, inner := "a", "&&", "b && (c && d)";
    var group := "(" + inner + ")";
    NameIsToken(a);
    NameIsToken(op);
    SplitJoin(a, op, group);
    RemoveWrappingParenthesesInverse(inner);
    assert e == a + " " + op + " " + group;
    assert RemoveWrappingParentheses(a) == a && RemoveWrappingParentheses(op) == op;
  }

  /** A group on the left is one part, unwrapped. */
  lemma SplitLeftGroup()
    ensures Split("(a && b) && c") == ["a && b", "&&", "c"]
  {
    var inner := "a && b";
    var group := "(" + inner + ")";
    GroupIsToken(inner);
    NameIsToken("&&");
    SplitJoin(group, "&&", "c");
    RemoveWrappingParenthesesInverse(inner);
    assert "(a && b) && c" == group + " " + "&&" + " " + "c";
  }

  /** A lone group splits into its unwrapped contents. */
  lemma SplitGroup()
    ensures Split("(a)") == ["a"]
  {
    GroupIsToken("a");
    SplitToken("(a)");
    RemoveWrappingParenthesesInverse("a");
  }

  // ---- tree building (lexer_test.go, TestBuildTree)

  lemma BuildLiteralAndNegation()
    ensures BuildTree("t") == Success(Literal("t"))
    ensures BuildTree("!t") == Success(Not(Literal("t")))
  {
    NameIsToken("t");
    NameIsToken("!t");
    BuildTreeToken("t");
    BuildTreeToken("!t");
    assert "!t"[1..] == "t";
  }

  /** Any other name is a literal too; its value waits for the context. */
  lemma BuildNames(f: string, v: string)
    requires f == "f" && v == "SomeVariable"
    ensures BuildTree(f) == Success(Literal(f))
    ensures BuildTree(v) == Success(Literal(v))
  {
    NameIsToken(f);
    NameIsToken(v);
    BuildTreeToken(f);
    BuildTreeToken(v);
  }

  lemma BuildAnd()
    ensures BuildTree("t && f") == Success(And(Literal("t"), Literal("f")))
  {
    NameIsToken("t");
    NameIsToken("f");
    NameIsToken("&&");
    BuildTreeToken("t");
    BuildTreeToken("f");
    BuildTreeBinary("t", "&&", "f");
    assert "t && f" == "t" + " " + "&&" + " " + "f";
  }

  lemma BuildOr()
    ensures BuildTree("t || f") == Success(Or(Literal("t"), Literal("f")))
  {
    NameIsToken("t");
    NameIsToken("f");
    NameIsToken("||");
    BuildTreeToken("t");
    BuildTreeToken("f");
    BuildTreeBinary("t", "||", "f");
    assert "t || f" == "t" + " " + "||" + " " + "f";
  }

  lemma SplitTrailingGroup(e: string)
    requires e == "t" + " " + "&&" + " " + "(" + "f || t" + ")"
    ensures Split(e) == ["t", "&&", "f || t"]
  {
    NameIsToken("t");
    NameIsToken("&&");
    var inner := "f || t";
    var group := "(" + inner + ")";
    RemoveWrappingParenthesesInverse(inner);
    SplitJoin("t", "&&", group);
    assert e == "t" + " " + "&&" + " " + group;
  }

  lemma BuildNestedGroup(e: string)
    requires e == "t" + " " + "&&" + " " + "(" + "f || t" + ")"
    ensures BuildTree(e) == Success(And(Literal("t"), Or(Literal("f"), Literal("t"))))
  {
    SplitTrailingGroup(e);
    NameIsToken("t");
    BuildTreeToken("t");
    BuildTreeOfNames("f", "||", "t");
    assert "f || t" == "f" + " " + "||" + " " + "t";
    assert BuildTree(e) == BuildBinary(Split(e));
  }

  // ---- quirks kept from the source

  /** Only the first space after the operator separates: the right operand
      keeps any further ones, and so does its literal. */
  lemma DoubleSpaceAfterOperator(e: string)
    requires e == "a" + " " + "&&" + "  " + "b"
    ensures BuildTree(e) == Success(And(Literal("a"), Literal(" b")))
  {
    ExtraSpaceAfterOperator("a", "&&", "b");
    assert e == "a" + " " + "&&" + "  " + "b";
    assert " " + "b" == " b";
  }

  /** `a && (x) && (c)` has the single literal `x) && (c` on its right, while
      `a && ((x) && (c))` has `x && c` there. */
  lemma GroupedMiddleOperand(e: string, grouped: string)
    requires e == "a" + " " + "&&" + " " + ("(" + ("x" + ")" + " && " + "(" + "c") + ")")
    requires grouped == "a" + " " + "&&" + " " + ("(" + (("(" + "x" + ")") + " " + "&&" + " " + ("(" + "c" + ")")) + ")")
    ensures BuildTree(e) == Success(And(Literal("a"), Literal("x) && (c")))
    ensures BuildTree(grouped) == Success(And(Literal("a"), And(Literal("x"), Literal("c"))))
  {
    GroupedOperandsAfterOperator("a", "x", " && ", "c");
    GroupedRestGroupsRight("a", "x", "c");
    assert "x" + ")" + " && " + "(" + "c" == "x) && (c";
  }

  /** A one-token expression is a literal of its whole unstripped text. */
  lemma ParenthesisedLiteralIsNotUnwrapped()
    ensures BuildTree("(MIT)") == Success(Literal("(MIT)"))
    ensures BuildTree("(MIT)") != BuildTree("MIT")
  {
    GroupIsToken("MIT");
    BuildTreeToken("(MIT)");
    NameIsToken("MIT");
    BuildTreeToken("MIT");
  }

  /** `!` before a group negates the literal text of the group. */
  lemma NegatedGroupIsLiteral(e: string)
    requires e == "!(" + "a && b" + ")"
    ensures BuildTree(e) == Success(Not(Literal("(a && b)")))
  {
    var x := "a && b";
    NegatedGroup(x);
    assert e == "!(" + x + ")";
    assert "(" + x + ")" == "(a && b)";
  }

  lemma EmptyExpressionPanics()
    ensures BuildTree("") == Panic
  {
    BlankPanics("");
  }

  lemma TwoBareTokensPanic()
    ensures BuildTree("a b") == Panic
  {
    NameIsToken("a");
    NameIsToken("b");
    TwoTokensPanic("a", "b");
    assert "a b" == "a" + " " + "b";
  }

  lemma DanglingOperatorPanics()
    ensures BuildTree("a && ") == Panic
  {
    NameIsToken("a");
    NameIsToken("&&");
    BuildTreeToken("a");
    TrailingOperatorPanics("a", "&&");
    assert "a && " == "a" + " " + "&&" + " ";
  }
}

/** The evaluator's tests (solver_test.go) and the documented example, proved
    on the trees the parser builds. */
module SolverExamples {
  import opened Wrappers
  import opened StrConv
  import opened BoolExpr

  /** Every accepted boolean spelling resolves to its value whatever the context
      says about that text; any other text is looked up. */
  lemma SpellingsIgnoreContext(raw: string, context: map<string, bool>)
    requires raw in context
    ensures raw in TrueSpellings ==> LiteralValue(raw, context) == Some(true)
    ensures raw in FalseSpellings ==> LiteralValue(raw, context) == Some(false)
    ensures raw !in TrueSpellings + FalseSpellings ==> LiteralValue(raw, context) == Some(context[raw])
  {
  }

  /** The truth tables of `&&` and `||` over the spellings T and F, with an
      empty context. */
  lemma TruthTables(e: string, x: string, op: string, y: string)
    requires x in ["T", "F"] && y in ["T", "F"] && (op == "&&" || op == "||")
    requires e == x + " " + op + " " + y
    ensures New(e).Success?
    ensures Solve(New(e).value, map[]) ==
              Ok(if op == "&&" then x == "T" && y == "T" else x == "T" || y == "T")
  {
    BuildTreeOfNames(x, op, y);
  }

  /** Chains of three spellings group to the right. */
  lemma ChainTree(e: string, x: string, y: string, z: string)
    requires x in ["T", "F"] && y in ["T", "F"] && z in ["T", "F"]
    requires e == x + " && " + y + " && " + z
    ensures BuildTree(e) == Success(And(Literal(x), And(Literal(y), Literal(z))))
  {
    var tail := y + " && " + z;
    assert e == x + " " + "&&" + " " + tail;
    assert tail == y + " " + "&&" + " " + z;
    NameIsToken(x);
    NameIsToken("&&");
    BuildTreeToken(x);
    BuildTreeOfNames(y, "&&", z);
    BuildTreeBinary(x, "&&", tail);
  }

  /** Right-grouped chains evaluate as conjunctions: "T && T && F" is false and
      "T && T && T" is true. */
  lemma SolveChains(e1: string, e2: string)
    requires e1 == "T" + " && " + "T" + " && " + "F"
    requires e2 == "T" + " && " + "T" + " && " + "T"
    ensures New(e1).Success? && Solve(New(e1).value, map[]) == Ok(false)
    ensures New(e2).Success? && Solve(New(e2).value, map[]) == Ok(true)
  {
    ChainTree(e1, "T", "T", "F");
    ChainTree(e2, "T", "T", "T");
  }

  /** The spellings `T` and `F` on their own are true and false. */
  lemma SolveLiterals(t: string, f: string)
    requires t == "T" && f == "F"
    ensures New(t).Success? && Solve(New(t).value, map[]) == Ok(true)
    ensures New(f).Success? && Solve(New(f).value, map[]) == Ok(false)
  {
    NameIsToken(t);
    NameIsToken(f);
    BuildTreeToken(t);
    BuildTreeToken(f);
  }

  /** With A true and B false, the names alone give their decisions. */
  lemma SolveVariableNames(a: string, b: string)
    requires a == "A" && b == "B"
    ensures New(a).Success? && Solve(New(a).value, map[a := true, b := false]) == Ok(true)
    ensures New(b).Success? && Solve(New(b).value, map[a := true, b := false]) == Ok(false)
  {
    NameIsToken(a);
    NameIsToken(b);
    BuildTreeToken(a);
    BuildTreeToken(b);
    assert a !in TrueSpellings + FalseSpellings && b !in TrueSpellings + FalseSpellings;
  }

  /** With A true and B false: "A && B" is false. */
  lemma SolveVariablesAnd(e: string)
    requires e == "A" + " " + "&&" + " " + "B"
    ensures New(e).Success? && Solve(New(e).value, map["A" := true, "B" := false]) == Ok(false)
  {
    BuildTreeOfNames("A", "&&", "B");
    assert e == "A" + " " + "&&" + " " + "B";
  }

  /** With A true and B false: "A || B" is true. */
  lemma SolveVariablesOr(e: string)
    requires e == "A" + " " + "||" + " " + "B"
    ensures New(e).Success? && Solve(New(e).value, map["A" := true, "B" := false]) == Ok(true)
  {
    BuildTreeOfNames("A", "||", "B");
    assert e == "A" + " " + "||" + " " + "B";
  }

  /** With A true and B false: "!A" is false and "!B" is true. */
  lemma SolveVariablesNot(e1: string, e2: string)
    requires e1 == "!" + "A" && e2 == "!" + "B"
    ensures New(e1).Success? && Solve(New(e1).value, map["A" := true, "B" := false]) == Ok(false)
    ensures New(e2).Success? && Solve(New(e2).value, map["A" := true, "B" := false]) == Ok(true)
  {
    var context := map["A" := true, "B" := false];
    assert Solve(Not(Literal("A")), context) == Ok(false) by {
      assert "A" !in TrueSpellings + FalseSpellings;
    }
    assert Solve(Not(Literal("B")), context) == Ok(true) by {
      assert "B" !in TrueSpellings + FalseSpellings;
    }
    BuildTreeNegatedName("A");
    BuildTreeNegatedName("B");
  }

  /** "!T" is false and "!F" is true. */
  lemma SolveNot(e1: string, e2: string)
    requires e1 == "!" + "T" && e2 == "!" + "F"
    ensures New(e1).Success? && Solve(New(e1).value, map[]) == Ok(false)
    ensures New(e2).Success? && Solve(New(e2).value, map[]) == Ok(true)
  {
    BuildTreeNegatedName("T");
    BuildTreeNegatedName("F");
  }

  /** A negated spelling is an operand like any other: "T && !F" and
      "!F && T" are both true. */
  lemma SolveNegatedOperands(e1: string, e2: string)
    requires e1 == "T" + " " + "&&" + " " + ("!" + "F")
    requires e2 == ("!" + "F") + " " + "&&" + " " + "T"
    ensures New(e1).Success? && Solve(New(e1).value, map[]) == Ok(true)
    ensures New(e2).Success? && Solve(New(e2).value, map[]) == Ok(true)
  {
    var t, op, nf := "T", "&&", "!" + "F";
    assert PlainChars(nf) && nf[0] == '!';
    NameIsToken(t);
    NameIsToken(op);
    NameIsToken(nf);
    BuildTreeToken(t);
    BuildTreeNegatedName("F");
    assert RemoveWrappingParentheses(t) == t && RemoveWrappingParentheses(op) == op;
    assert RemoveWrappingParentheses(nf) == nf;
    BuildTreeBinary(t, op, nf);
    BuildTreeBinary(nf, op, t);
  }

  /** A group on the right: "T || (F && F)" is true. */
  lemma SolveGroupRight(e: string)
    requires e == "T" + " " + "||" + " " + ("(" + ("F" + " " + "&&" + " " + "F") + ")")
    ensures New(e).Success? && Solve(New(e).value, map[]) == Ok(true)
  {
    var t, f, or := "T", "F", "||";
    var ff := f + " " + "&&" + " " + f;
    NameIsToken(t);
    NameIsToken(or);
    BuildTreeToken(t);
    assert RemoveWrappingParentheses(t) == t && RemoveWrappingParentheses(or) == or;
    assert BuildTree(ff) == Success(And(Literal(f), Literal(f))) by {
      BuildTreeOfNames(f, "&&", f);
    }
    RemoveWrappingParenthesesInverse(ff);
    BuildTreeBinary(t, or, "(" + ff + ")");
  }

  /** A group on the left: "(T || F) && F" is false. */
  lemma SolveGroupLeft(e: string)
    requires e == ("(" + ("T" + " " + "||" + " " + "F") + ")") + " " + "&&" + " " + "F"
    ensures New(e).Success? && Solve(New(e).value, map[]) == Ok(false)
  {
    var t, f, and := "T", "F", "&&";
    var tf := t + " " + "||" + " " + f;
    NameIsToken(f);
    NameIsToken(and);
    BuildTreeToken(f);
    assert RemoveWrappingParentheses(f) == f && RemoveWrappingParentheses(and) == and;
    assert BuildTree(tf) == Success(Or(Literal(t), Literal(f))) by {
      BuildTreeOfNames(t, "||", f);
    }
    RemoveWrappingParenthesesInverse(tf);
    GroupIsToken(tf);
    BuildTreeBinary("(" + tf + ")", and, f);
  }

  /** An unknown name is an unknown-variable error naming it, whose message
      starts with "unknown variable" and ends with the name. */
  lemma SolveUnknownVariable(e: string)
    requires e == "A"
    ensures New(e).Success?
    ensures Solve(New(e).value, map[]) == Err(UnknownVariable("A"))
    ensures var m := UnknownVariableMessage("A");
            m[..16] == "unknown variable" && m[|m| - 1..] == "A"
  {
    NameIsToken(e);
    BuildTreeToken(e);
    var m := UnknownVariableMessage("A");
    assert m[..|UnknownVariablePrefix|] == UnknownVariablePrefix;
    assert m[..16] == UnknownVariablePrefix[..16];
  }

  /** No short-circuit: a false left side does not hide an unknown right side. */
  lemma NoShortCircuit(e: string)
    requires e == "KNOWN_FALSE" + " " + "&&" + " " + "UNKNOWN"
    ensures New(e).Success?
    ensures var r := Solve(New(e).value, map["KNOWN_FALSE" := false]);
            r.Err? && AsUnknownVariable(r.error) == Some("UNKNOWN")
  {
    var a, b := "KNOWN_FALSE", "UNKNOWN";
    var context := map[a := false];
    BuildTreeOfNames(a, "&&", b);
    assert e == a + " " + "&&" + " " + b;
    NoSpellingOfLength(a);
    NoSpellingOfLength(b);
    assert b !in context;
    assert Solve(Literal(b), context) == Err(UnknownVariable(b));
  }

  lemma SplitDocumentedExample(e: string)
    requires e == "T" + " " + "&&" + " " + "(" + "T || F" + ")"
    ensures Split(e) == ["T", "&&", "T || F"]
  {
    var inner := "T || F";
    var group := "(" + inner + ")";
    assert e == "T" + " " + "&&" + " " + group;
    RemoveWrappingParenthesesInverse(inner);
    NameIsToken("T");
    NameIsToken("&&");
    SplitJoin("T", "&&", group);
  }

  /** The example in the package documentation: "T && (T || F)" is true. */
  lemma DocumentedExample(e: string, context: map<string, bool>)
    requires e == "T" + " " + "&&" + " " + "(" + "T || F" + ")"
    ensures New(e).Success? && Solve(New(e).value, context) == Ok(true)
  {
    SplitDocumentedExample(e);
    BuildTreeOfNames("T", "||", "F");
    assert "T || F" == "T" + " " + "||" + " " + "F";
    NameIsToken("T");
    BuildTreeToken("T");
    assert BuildTree(e) == BuildBinary(Split(e));
    assert Solve(Or(Literal("T"), Literal("F")), context) == Ok(true);
  }

  /** A fully parenthesised expression is one literal, so it is an unknown
      variable rather than false. */
  lemma WrappedExpressionIsUnknown(e: string)
    requires e == "(" + "T && F" + ")"
    ensures New(e) == Success(Literal(e))
    ensures Solve(New(e).value, map[]) == Err(UnknownVariable(e))
  {
    var inner := "T && F";
    GroupIsToken(inner);
    assert e == "(" + inner + ")";
    BuildTreeToken(e);
    assert e[0] == '(';
    assert BuildTree(e) == Success(Literal(e));
    assert e !in TrueSpellings + FalseSpellings;
  }
}
