/** The license-expression engine: a splitter, a recursive tree builder and an
    evaluator for expressions such as `MIT || (Apache-2.0 && !GPL-3.0)`.
    Strings are sequences of characters, one per byte of the Go string. */
module BoolExpr {
  import opened Wrappers
  import opened StrConv

  // ---------------------------------------------------------------------------
  // Trees (boolexpr.go). Each constructor is one value of the Go `Operator`
  // enum; only a literal carries raw text, `Not` has only a left child and
  // `And`/`Or` have both.
  // ---------------------------------------------------------------------------

  datatype Node =
    | Literal(rawLiteralValue: string)
    | Not(left: Node)
    | And(left: Node, right: Node)
    | Or(left: Node, right: Node)

  // ---------------------------------------------------------------------------
  // Errors (errors.go, and the `%w` wrapping done by fmt.Errorf)
  // ---------------------------------------------------------------------------

  /** The text fmt.Errorf puts in front of a wrapped error. */
  datatype Context =
    | BuildLeftSubtree                       // "failed to build left subtree"
    | BuildRightSubtree                      // "failed to build right subtree"
    | BuildDecisionTree(expression: string)  // "failed to build decision tree for expression '...'"
    | SolveNot                               // "failed solving NOT sub-expression"
    | SolveLeft                              // "failed solving left expression"
    | SolveRight                             // "failed solving right expression"

  datatype Error =
    | UnknownVariable(variableName: string)
    | InvalidOperator(operator: string)
    | Wrapped(context: Context, cause: Error)

  /** `NewUnknownVariableError`: the error carries exactly the given name. */
  function NewUnknownVariableError(variableName: string): (e: Error)
    ensures e.UnknownVariable? && e.variableName == variableName
    ensures AsUnknownVariable(e) == Some(variableName)
  {
    UnknownVariable(variableName)
  }

  const UnknownVariablePrefix: string := "unknown variable: "

  /** `UnknownVariableError.Error()`: the fixed prefix followed by the name, so the
      name can be read back from the message. */
  function UnknownVariableMessage(variableName: string): (m: string)
    ensures |m| == |UnknownVariablePrefix| + |variableName|
    ensures m[..|UnknownVariablePrefix|] == UnknownVariablePrefix
    ensures m[|UnknownVariablePrefix|..] == variableName
  {
    UnknownVariablePrefix + variableName
  }

  /** The innermost cause of a chain of wrapped errors. */
  function Root(e: Error): (r: Error)
    ensures !r.Wrapped?
  {
    if e.Wrapped? then Root(e.cause) else e
  }

  /** `errors.As(err, &*UnknownVariableError)`: looks through every `%w` wrapper,
      so it finds an unknown variable exactly when the chain ends in one. */
  function AsUnknownVariable(e: Error): (r: Option<string>)
    ensures r.Some? <==> Root(e).UnknownVariable?
    ensures r.Some? ==> r.value == Root(e).variableName
  {
    match e
    case UnknownVariable(name) => Some(name)
    case InvalidOperator(_) => None
    case Wrapped(_, cause) => AsUnknownVariable(cause)
  }

  /** `e` wrapped by each context of `cs`, the innermost first. */
  function WrapAll(cs: seq<Context>, e: Error): Error
  {
    if cs == [] then e else WrapAll(cs[1..], Wrapped(cs[0], e))
  }

  /** However deeply an unknown-variable error is wrapped, callers still find it,
      with its name, by kind. */
  lemma {:induction false} UnknownVariableSurvivesWrapping(cs: seq<Context>, e: Error)
    ensures AsUnknownVariable(WrapAll(cs, e)) == AsUnknownVariable(e)
  {
    if cs != [] {
      UnknownVariableSurvivesWrapping(cs[1..], Wrapped(cs[0], e));
    }
  }

  // ---------------------------------------------------------------------------
  // Splitting (lexer.go: splitString, removeWrappingParentheses)
  // ---------------------------------------------------------------------------

  /** `removeWrappingParentheses`: drops one leading `(` and one trailing `)` when
      both are there; the characters between them are not checked. */
  function RemoveWrappingParentheses(s: string): (r: string)
    ensures |s| > 0 && s[0] == '(' && s[|s| - 1] == ')' ==> s == "(" + r + ")"
    ensures !(|s| > 0 && s[0] == '(' && s[|s| - 1] == ')') ==> r == s
  {
    if |s| > 0 && s[0] == '(' && s[|s| - 1] == ')' then s[1..|s| - 1] else s
  }

  /** Wrapping in one pair of parentheses and removing it are inverse. */
  lemma RemoveWrappingParenthesesInverse(x: string)
    ensures RemoveWrappingParentheses("(" + x + ")") == x
  {
    var s := "(" + x + ")";
    assert s[1..|s| - 1] == x;
  }

  /** The splitter's loop, as a function of its state: the input not yet read,
      the parts found so far, the current part and the parenthesis depth.
      At most two parts are split off at spaces; the rest of the input after the
      space that ends the second one is the third part, verbatim. */
  function Scan(rest: string, parts: seq<string>, cur: string, depth: int): (r: seq<string>)
    requires |parts| <= 1
    ensures |parts| <= |r| <= 3 && r[..|parts|] == parts
    ensures cur != [] ==> |r| > |parts|
    decreases |rest|
  {
    if rest == [] then
      if cur != [] then parts + [RemoveWrappingParentheses(cur)] else parts
    else
      var c := rest[0];
      if c == ' ' then
        if depth == 0 then
          if cur != [] then
            var parts' := parts + [RemoveWrappingParentheses(cur)];
            if |parts'| == 2 then parts' + [RemoveWrappingParentheses(rest[1..])]
            else Scan(rest[1..], parts', [], depth)
          else Scan(rest[1..], parts, cur, depth)
        else Scan(rest[1..], parts, cur + [c], depth)
      else if c == '(' then Scan(rest[1..], parts, cur + [c], depth + 1)
      else if c == ')' then Scan(rest[1..], parts, cur + [c], depth - 1)
      else Scan(rest[1..], parts, cur + [c], depth)
  }

  /** What `splitString` returns. */
  function Split(expression: string): (parts: seq<string>)
    ensures |parts| <= 3
  {
    Scan(expression, [], [], 0)
  }

  /** Every part the loop adds is no longer than what was left to read, and
      strictly shorter once it adds two or more. */
  lemma {:induction false} ScanBounds(rest: string, parts: seq<string>, cur: string, depth: int)
    requires |parts| <= 1
    ensures var r := Scan(rest, parts, cur, depth);
            forall i | |parts| <= i < |r| :: |r[i]| <= |cur| + |rest|
    ensures var r := Scan(rest, parts, cur, depth);
            |r| >= |parts| + 2 ==> forall i | |parts| <= i < |r| :: |r[i]| < |cur| + |rest|
    decreases |rest|
  {
    if rest != [] {
      var c := rest[0];
      if c == ' ' && depth == 0 {
        if cur != [] {
          var parts' := parts + [RemoveWrappingParentheses(cur)];
          if |parts'| < 2 {
            ScanBounds(rest[1..], parts', [], depth);
            assert Scan(rest, parts, cur, depth)[..|parts'|] == parts';
          }
        } else {
          ScanBounds(rest[1..], parts, cur, depth);
        }
      } else {
        ScanBounds(rest[1..], parts, cur + [c], depth + DepthStep(c));
      }
    }
  }

  /** `splitString`: at most three parts, and once there are two or more, each
      is strictly shorter than the input (so the tree builder terminates). */
  lemma SplitBounds(expression: string)
    ensures |Split(expression)| <= 3
    ensures |Split(expression)| >= 2 ==> forall i | 0 <= i < |Split(expression)| :: |Split(expression)[i]| < |expression|
  {
    ScanBounds(expression, [], [], 0);
  }

  /** `splitString` as the loop the source runs. */
  method SplitString(expression: string) returns (parts: seq<string>)
    ensures parts == Split(expression)
  {
    parts := [];
    var currentPart: string := [];
    var parenthesesCount: int := 0;
    var i := 0;
    while i < |expression|
      invariant 0 <= i <= |expression| && |parts| <= 1
      invariant Scan(expression[i..], parts, currentPart, parenthesesCount) == Split(expression)
    {
      var c := expression[i];
      if c == ' ' {
        if parenthesesCount == 0 {
          if currentPart != [] {
            parts := parts + [RemoveWrappingParentheses(currentPart)];
            currentPart := [];
            if |parts| == 2 {
              var rest := expression[i + 1..];
              parts := parts + [RemoveWrappingParentheses(rest)];
              return;
            }
          }
        } else {
          currentPart := currentPart + [c];
        }
      } else if c == '(' {
        parenthesesCount := parenthesesCount + 1;
        currentPart := currentPart + [c];
      } else if c == ')' {
        parenthesesCount := parenthesesCount - 1;
        currentPart := currentPart + [c];
      } else {
        currentPart := currentPart + [c];
      }
      i := i + 1;
    }
    if currentPart != [] {
      parts := parts + [RemoveWrappingParentheses(currentPart)];
    }
  }

  /** How a character moves the parenthesis depth. */
  function DepthStep(c: char): int
  {
    if c == '(' then 1 else if c == ')' then -1 else 0
  }

  /** The net change of parenthesis depth across `s`. */
  function DepthChange(s: string): int
  {
    if s == [] then 0 else DepthStep(s[0]) + DepthChange(s[1..])
  }

  /** Reading `s` from depth `depth`, no space is met at depth 0. */
  predicate NoTopLevelSpace(s: string, depth: int)
    decreases |s|
  {
    s == [] || (!(s[0] == ' ' && depth == 0) && NoTopLevelSpace(s[1..], depth + DepthStep(s[0])))
  }

  /** A token: a non-empty word, read from depth 0, that has no top-level space
      and ends back at depth 0, so a space after it is a separator. */
  predicate IsToken(w: string)
  {
    w != [] && NoTopLevelSpace(w, 0) && DepthChange(w) == 0
  }

  /** Reading a stretch without top-level spaces only extends the current part. */
  lemma {:induction false} ScanThrough(w: string, t: string, parts: seq<string>, cur: string, depth: int)
    requires |parts| <= 1
    requires NoTopLevelSpace(w, depth)
    ensures Scan(w + t, parts, cur, depth) == Scan(t, parts, cur + w, depth + DepthChange(w))
    decreases |w|
  {
    if w == [] {
      assert w + t == t && cur + w == cur;
    } else {
      var c := w[0];
      assert (w + t)[0] == c && (w + t)[1..] == w[1..] + t;
      assert cur + [c] + w[1..] == cur + w;
      ScanThrough(w[1..], t, parts, cur + [c], depth + DepthStep(c));
    }
  }

  /** No space and no parenthesis anywhere in `w`. */
  predicate PlainChars(w: string)
  {
    forall i | 0 <= i < |w| :: w[i] != ' ' && w[i] != '(' && w[i] != ')'
  }

  /** No parenthesis anywhere in `w` (spaces allowed). */
  predicate NoParentheses(w: string)
  {
    forall i | 0 <= i < |w| :: w[i] != '(' && w[i] != ')'
  }

  lemma {:induction false} NoParenthesesDepth(w: string, depth: int)
    requires NoParentheses(w)
    requires depth != 0 || PlainChars(w)
    ensures NoTopLevelSpace(w, depth) && DepthChange(w) == 0
    decreases |w|
  {
    if w != [] {
      NoParenthesesDepth(w[1..], depth);
    }
  }

  lemma {:induction false} DepthAppend(a: string, b: string, depth: int)
    requires NoTopLevelSpace(a, depth) && NoTopLevelSpace(b, depth + DepthChange(a))
    ensures NoTopLevelSpace(a + b, depth) && DepthChange(a + b) == DepthChange(a) + DepthChange(b)
    decreases |a|
  {
    if a == [] {
      assert a + b == b;
    } else {
      assert (a + b)[1..] == a[1..] + b;
      DepthAppend(a[1..], b, depth + DepthStep(a[0]));
    }
  }

  /** A word without spaces or parentheses is a token. */
  lemma NameIsToken(w: string)
    requires w != [] && PlainChars(w)
    ensures IsToken(w)
  {
    NoParenthesesDepth(w, 0);
  }

  /** A word that closes a parenthesis and later reopens one, `x) mid (c`, is a
      single token: the spaces in between are read below depth 0, so they do
      not separate. */
  lemma ClosedThenOpenedIsToken(x: string, mid: string, c: string)
    requires PlainChars(x) && NoParentheses(mid) && PlainChars(c)
    ensures IsToken(x + ")" + mid + "(" + c)
  {
    NoParenthesesDepth(x, 0);
    NoParenthesesDepth(mid, -1);
    NoParenthesesDepth(c, 0);
    assert NoTopLevelSpace(")", 0) && DepthChange(")") == -1 by {
      assert ")"[1..] == [];
    }
    assert NoTopLevelSpace("(", -1) && DepthChange("(") == 1 by {
      assert "("[1..] == [];
    }
    DepthAppend("(", c, -1);
    DepthAppend(mid, "(" + c, -1);
    DepthAppend(")", mid + ("(" + c), 0);
    DepthAppend(x, ")" + (mid + ("(" + c)), 0);
    assert x + ")" + mid + "(" + c == x + (")" + (mid + ("(" + c)));
  }

  /** A parenthesised group without inner parentheses is a token, whatever
      spaces it holds. */
  lemma GroupIsToken(x: string)
    requires NoParentheses(x)
    ensures IsToken("(" + x + ")")
  {
    NoParenthesesDepth(x, 1);
    DepthAppend(x, ")", 1);
    var s := "(" + x + ")";
    assert s[1..] == x + ")";
  }

  /** `n` spaces. */
  function Spaces(n: nat): (s: string)
    ensures |s| == n && AllSpaces(s)
  {
    seq(n, _ => ' ')
  }

  /** A run of top-level spaces while no part is being read is skipped: it
      never produces an empty part. */
  lemma {:induction false} ScanSkipsSpaces(n: nat, rest: string, parts: seq<string>)
    requires |parts| <= 1
    ensures Scan(Spaces(n) + rest, parts, [], 0) == Scan(rest, parts, [], 0)
  {
    if n > 0 {
      var s := Spaces(n) + rest;
      assert Spaces(n) == " " + Spaces(n - 1);
      assert s == " " + (Spaces(n - 1) + rest);
      assert s[0] == ' ' && s[1..] == Spaces(n - 1) + rest;
      assert Scan(s, parts, [], 0) == Scan(s[1..], parts, [], 0);
      ScanSkipsSpaces(n - 1, rest, parts);
    } else {
      assert Spaces(n) + rest == rest;
    }
  }

  /** Spaces in front of an expression are skipped. */
  lemma SplitSkipsLeadingSpaces(n: nat, expression: string)
    ensures Split(Spaces(n) + expression) == Split(expression)
  {
    ScanSkipsSpaces(n, expression, []);
  }

  /** Spaces after the first token are skipped as well, however many there are. */
  lemma SplitSkipsSpacesAfterToken(a: string, n: nat, rest: string)
    requires IsToken(a) && n >= 1
    ensures Split(a + Spaces(n) + rest) == Scan(rest, [RemoveWrappingParentheses(a)], [], 0)
  {
    var tail := Spaces(n) + rest;
    assert a + Spaces(n) + rest == a + tail;
    ScanThrough(a, tail, [], [], 0);
    assert [] + a == a && tail[0] == ' ' && tail[1..] == Spaces(n - 1) + rest;
    assert [] + [RemoveWrappingParentheses(a)] == [RemoveWrappingParentheses(a)];
    ScanSkipsSpaces(n - 1, rest, [RemoveWrappingParentheses(a)]);
  }

  /** A single token splits into one part: the token with wrapping parentheses removed. */
  lemma SplitToken(w: string)
    requires IsToken(w)
    ensures Split(w) == [RemoveWrappingParentheses(w)]
  {
    ScanThrough(w, [], [], [], 0);
    assert w + [] == w && [] + w == w;
  }

  /** A token read last, with no part being read, is the last part. */
  lemma ScanFinalToken(b: string, parts: seq<string>)
    requires |parts| <= 1 && IsToken(b)
    ensures Scan(b, parts, [], 0) == parts + [RemoveWrappingParentheses(b)]
  {
    ScanThrough(b, [], parts, [], 0);
    assert b + [] == b && [] + b == b;
  }

  /** A top-level space that ends the second part makes the rest of the input,
      after that space, the third part. */
  lemma ScanEndsSecondPart(t: string, parts: seq<string>, cur: string)
    requires |parts| == 1 && cur != [] && t != [] && t[0] == ' '
    ensures Scan(t, parts, cur, 0) ==
            parts + [RemoveWrappingParentheses(cur), RemoveWrappingParentheses(t[1..])]
  {
  }

  /** Once one part is split off, an operator token and a space end the second
      part, and everything after that space is the third, verbatim. */
  lemma ScanOperatorThenRest(op: string, t: string, parts: seq<string>)
    requires |parts| == 1 && IsToken(op) && t != [] && t[0] == ' '
    ensures Scan(op + t, parts, [], 0) ==
            parts + [RemoveWrappingParentheses(op), RemoveWrappingParentheses(t[1..])]
  {
    calc {
      Scan(op + t, parts, [], 0);
    == { ScanThrough(op, t, parts, [], 0); assert [] + op == op; }
      Scan(t, parts, op, 0);
    == { ScanEndsSecondPart(t, parts, op); }
      parts + [RemoveWrappingParentheses(op), RemoveWrappingParentheses(t[1..])];
    }
  }

  /** Two tokens separated by one space split into exactly two parts. */
  lemma SplitTwoTokens(a: string, b: string)
    requires IsToken(a) && IsToken(b)
    ensures Split(a + " " + b) == [RemoveWrappingParentheses(a), RemoveWrappingParentheses(b)]
  {
    assert Spaces(1) == " ";
    SplitSkipsSpacesAfterToken(a, 1, b);
    ScanFinalToken(b, [RemoveWrappingParentheses(a)]);
  }

  /** Splitting undoes joining: a token, a space, an operator token, a space and
      anything at all split into the two tokens and the whole remainder. */
  lemma SplitJoin(a: string, op: string, b: string)
    requires IsToken(a) && IsToken(op)
    ensures Split(a + " " + op + " " + b) ==
            [RemoveWrappingParentheses(a), RemoveWrappingParentheses(op), RemoveWrappingParentheses(b)]
  {
    var t := " " + b;
    assert Spaces(1) == " ";
    assert a + " " + op + " " + b == a + Spaces(1) + (op + t);
    SplitSkipsSpacesAfterToken(a, 1, op + t);
    ScanOperatorThenRest(op, t, [RemoveWrappingParentheses(a)]);
    assert t[1..] == b;
  }

  /** Every character of `s` is a space. */
  predicate AllSpaces(s: string)
  {
    forall i | 0 <= i < |s| :: s[i] == ' '
  }

  lemma {:induction false} ScanEmpty(rest: string, parts: seq<string>, cur: string, depth: int)
    requires |parts| <= 1
    requires cur == [] ==> depth == 0
    ensures Scan(rest, parts, cur, depth) == [] <==> parts == [] && cur == [] && AllSpaces(rest)
    decreases |rest|
  {
    if rest != [] && parts == [] && cur == [] {
      if rest[0] == ' ' {
        ScanEmpty(rest[1..], parts, cur, depth);
        assert AllSpaces(rest) <==> AllSpaces(rest[1..]) by {
          if AllSpaces(rest[1..]) {
            forall i | 0 <= i < |rest| ensures rest[i] == ' ' {
              if i > 0 { assert rest[i] == rest[1..][i - 1]; }
            }
          }
        }
      }
    }
  }

  /** `splitString` finds no part at all exactly when the input is blank. */
  lemma SplitEmptyIffBlank(expression: string)
    ensures Split(expression) == [] <==> AllSpaces(expression)
  {
    ScanEmpty(expression, [], [], 0);
  }

  // ---------------------------------------------------------------------------
  // Tree building (lexer.go: buildTree, buildUnary, buildBinary, parseLiteral,
  // parseNegation). A Go panic (index out of range) is the outcome `Panic`.
  // ---------------------------------------------------------------------------

  /** A bound on the length of the operands in a list of split parts. */
  function PartsMeasure(parts: seq<string>): nat
  {
    if |parts| >= 3 then (if |parts[0]| < |parts[2]| then |parts[2]| else |parts[0]|) + 1 else 0
  }

  /** `buildTree`: one part means a unary expression, built from the original,
      unstripped text; anything else goes to `buildBinary`. */
  function BuildTree(expression: string): (r: Outcome<Node, Error>)
    ensures |Split(expression)| == 0 || |Split(expression)| == 2 ==> r == Panic
    ensures r.Success? ==> (r.value.And? || r.value.Or? <==> |Split(expression)| == 3)
    decreases |expression|, 2
  {
    var parts := Split(expression);
    SplitBounds(expression);
    if |parts| == 1 then BuildUnary(expression) else BuildBinary(parts)
  }

  /** `buildUnary`: a leading `!` is a negation of the rest, anything else a literal. */
  function BuildUnary(expression: string): (r: Outcome<Node, Error>)
    ensures r.Success? ==> r.value.Literal? || r.value.Not?
    ensures r.Success? && r.value.Literal? ==> r.value.rawLiteralValue == expression
    ensures r.Panic? || r.Failure? ==> |expression| > 0 && expression[0] == '!'
    decreases |expression|, 1
  {
    if |expression| > 0 && expression[0] == '!' then ParseNegation(expression[1..])
    else ParseLiteral(expression)
  }

  /** `buildBinary`: indexes parts 0, 1 and 2 (a panic when there are fewer),
      builds the left then the right subtree, and only then checks the operator. */
  function BuildBinary(parts: seq<string>): (r: Outcome<Node, Error>)
    ensures |parts| < 3 ==> r == Panic
    ensures r.Success? ==> (r.value.And? <==> parts[1] == "&&") && (r.value.Or? <==> parts[1] == "||")
    ensures r.Failure? && r.error.InvalidOperator? ==> r.error.operator == parts[1] && parts[1] != "&&" && parts[1] != "||"
    decreases PartsMeasure(parts), 1
  {
    if |parts| < 3 then Panic
    else
      assert |parts[0]| < PartsMeasure(parts) && |parts[2]| < PartsMeasure(parts);
      match BuildTree(parts[0])
      case Panic => Panic
      case Failure(e) => Failure(Wrapped(BuildLeftSubtree, e))
      case Success(left) =>
        match BuildTree(parts[2])
        case Panic => Panic
        case Failure(e) => Failure(Wrapped(BuildRightSubtree, e))
        case Success(right) =>
          if parts[1] == "&&" then Success(And(left, right))
          else if parts[1] == "||" then Success(Or(left, right))
          else Failure(InvalidOperator(parts[1]))
  }

  /** `parseLiteral`: the whole text becomes the literal. */
  function ParseLiteral(expression: string): Outcome<Node, Error>
  {
    Success(Literal(expression))
  }

  /** `parseNegation`: the tree of the text after `!`, under a `Not`. */
  function ParseNegation(expression: string): (r: Outcome<Node, Error>)
    ensures r.Success? <==> BuildTree(expression).Success?
    ensures r.Success? ==> r.value == Not(BuildTree(expression).value)
    ensures r.Panic? <==> BuildTree(expression).Panic?
    ensures r.Failure? ==> r.error == Wrapped(BuildLeftSubtree, BuildTree(expression).error)
    decreases |expression| + 1, 0
  {
    match BuildTree(expression)
    case Panic => Panic
    case Failure(e) => Failure(Wrapped(BuildLeftSubtree, e))
    case Success(left) => Success(Not(left))
  }

  /** `New`: the tree `buildTree` builds, or its error wrapped with the expression. */
  function New(expression: string): (r: Outcome<Node, Error>)
    ensures r.Success? <==> BuildTree(expression).Success?
    ensures r.Success? ==> r.value == BuildTree(expression).value
    ensures r.Failure? <==> BuildTree(expression).Failure?
    ensures r.Failure? ==> r.error == Wrapped(BuildDecisionTree(expression), BuildTree(expression).error)
  {
    match BuildTree(expression)
    case Panic => Panic
    case Failure(e) => Failure(Wrapped(BuildDecisionTree(expression), e))
    case Success(root) => Success(root)
  }

  /** A single token is a unary expression. Its literal is the whole unstripped
      token, so `(MIT)` is the literal "(MIT)"; after `!` the rest is parsed. */
  lemma BuildTreeToken(w: string)
    requires IsToken(w)
    ensures w[0] != '!' ==> BuildTree(w) == Success(Literal(w))
    ensures w[0] == '!' && BuildTree(w[1..]).Success? ==> BuildTree(w) == Success(Not(BuildTree(w[1..]).value))
    ensures w[0] == '!' && BuildTree(w[1..]).Failure? ==>
              BuildTree(w) == Failure(Wrapped(BuildLeftSubtree, BuildTree(w[1..]).error))
    ensures w[0] == '!' && BuildTree(w[1..]).Panic? ==> BuildTree(w) == Panic
  {
    SplitToken(w);
    assert BuildTree(w) == BuildUnary(w);
    if w[0] == '!' {
      assert BuildUnary(w) == ParseNegation(w[1..]);
    }
  }

  /** Leading spaces are skipped by the splitter but, the whole expression being
      passed on when there is one part, kept in the literal. */
  lemma LeadingSpacesKeptInLiteral(n: nat, w: string)
    requires IsToken(w) && n >= 1
    ensures BuildTree(Spaces(n) + w) == Success(Literal(Spaces(n) + w))
  {
    var e := Spaces(n) + w;
    SplitSkipsLeadingSpaces(n, w);
    SplitToken(w);
    assert BuildTree(e) == BuildUnary(e);
    assert e[0] == Spaces(n)[0] == ' ';
  }

  /** A binary expression: the operands are built left first, an error in either
      is wrapped with its side, and only `&&` and `||` are operators. */
  lemma BuildTreeBinary(a: string, op: string, b: string)
    requires IsToken(a) && IsToken(op)
    ensures var l, o, r := BuildTree(RemoveWrappingParentheses(a)), RemoveWrappingParentheses(op),
                          BuildTree(RemoveWrappingParentheses(b));
            BuildTree(a + " " + op + " " + b) ==
              if l.Panic? then Panic
              else if l.Failure? then Failure(Wrapped(BuildLeftSubtree, l.error))
              else if r.Panic? then Panic
              else if r.Failure? then Failure(Wrapped(BuildRightSubtree, r.error))
              else if o == "&&" then Success(And(l.value, r.value))
              else if o == "||" then Success(Or(l.value, r.value))
              else Failure(InvalidOperator(o))
  {
    SplitJoin(a, op, b);
  }

  /** Two plain names joined by `&&` or `||` build the operator over two literals. */
  lemma BuildTreeOfNames(a: string, op: string, b: string)
    requires a != [] && PlainChars(a) && a[0] != '!'
    requires b != [] && PlainChars(b) && b[0] != '!'
    requires op == "&&" || op == "||"
    ensures BuildTree(a + " " + op + " " + b) ==
            Success(if op == "&&" then And(Literal(a), Literal(b)) else Or(Literal(a), Literal(b)))
  {
    NameIsToken(a);
    NameIsToken(b);
    NameIsToken(op);
    BuildTreeToken(a);
    BuildTreeToken(b);
    BuildTreeBinary(a, op, b);
  }

  /** `!` before a plain name is `NOT` of the name's literal. */
  lemma BuildTreeNegatedName(x: string)
    requires x != [] && PlainChars(x) && x[0] != '!'
    ensures BuildTree("!" + x) == Success(Not(Literal(x)))
  {
    var w := "!" + x;
    assert PlainChars(w) by {
      assert forall i | 1 <= i < |w| :: w[i] == x[i - 1];
    }
    NameIsToken(w);
    NameIsToken(x);
    BuildTreeToken(w);
    BuildTreeToken(x);
    assert w[1..] == x;
  }

  /** A second space after the operator is not a separator: it stays in front
      of the right-hand literal. */
  lemma ExtraSpaceAfterOperator(a: string, op: string, b: string)
    requires a != [] && PlainChars(a) && a[0] != '!'
    requires b != [] && PlainChars(b)
    requires op == "&&" || op == "||"
    ensures BuildTree(a + " " + op + "  " + b) ==
            Success(if op == "&&" then And(Literal(a), Literal(" " + b)) else Or(Literal(a), Literal(" " + b)))
  {
    NameIsToken(a);
    NameIsToken(op);
    NameIsToken(b);
    BuildTreeToken(a);
    assert Spaces(1) == " ";
    LeadingSpacesKeptInLiteral(1, b);
    BuildTreeBinary(a, op, " " + b);
    assert a + " " + op + "  " + b == a + " " + op + " " + (" " + b);
    assert RemoveWrappingParentheses(op) == op;
    assert RemoveWrappingParentheses(" " + b) == " " + b;
  }

  /** `!` before a parenthesised group negates the literal text of the group:
      the one-part expression keeps its parentheses. */
  lemma NegatedGroup(x: string)
    requires NoParentheses(x)
    ensures BuildTree("!(" + x + ")") == Success(Not(Literal("(" + x + ")")))
  {
    var g := "(" + x + ")";
    var w := "!" + g;
    GroupIsToken(x);
    DepthAppend("!", g, 0);
    assert w[0] == '!' && w[1..] == g && g[0] == '(';
    BuildTreeToken(g);
    BuildTreeToken(w);
    assert "!(" + x + ")" == w;
  }

  /** Chains group to the right: `a op b op' c` builds the same tree as
      `a op (b op' c)`, as long as `b` does not itself start with `(` (the naive
      parenthesis stripping would otherwise eat into the remainder). */
  lemma RightAssociative(a: string, op: string, b: string, op': string, c: string)
    requires IsToken(a) && IsToken(op)
    requires b != [] && b[0] != '('
    ensures BuildTree(a + " " + op + " " + b + " " + op' + " " + c) ==
            BuildTree(a + " " + op + " (" + b + " " + op' + " " + c + ")")
  {
    var rest := b + " " + op' + " " + c;
    assert a + " " + op + " " + b + " " + op' + " " + c == a + " " + op + " " + rest;
    assert a + " " + op + " (" + b + " " + op' + " " + c + ")" == a + " " + op + " " + ("(" + rest + ")");
    SplitJoin(a, op, rest);
    SplitJoin(a, op, "(" + rest + ")");
    RemoveWrappingParenthesesInverse(rest);
  }

  /** Where right grouping breaks: with a group as the middle operand, the
      splitter strips the first `(` and the last `)` of the whole rest, so
      `a && (x)mid(c)` has on its right the single literal `x)mid(c`. */
  lemma GroupedOperandsAfterOperator(a: string, x: string, mid: string, c: string)
    requires a != [] && PlainChars(a) && a[0] != '!'
    requires x != [] && PlainChars(x) && x[0] != '!' && NoParentheses(mid) && PlainChars(c)
    ensures var right := x + ")" + mid + "(" + c;
            BuildTree(a + " " + "&&" + " " + ("(" + right + ")")) == Success(And(Literal(a), Literal(right)))
  {
    var right := x + ")" + mid + "(" + c;
    var op := "&&";
    NameIsToken(a);
    NameIsToken(op);
    BuildTreeToken(a);
    RemoveWrappingParenthesesInverse(right);
    ClosedThenOpenedIsToken(x, mid, c);
    BuildTreeToken(right);
    assert RemoveWrappingParentheses(a) == a && RemoveWrappingParentheses(op) == op;
    BuildTreeBinary(a, op, "(" + right + ")");
  }

  /** With the rest wrapped in one more pair of parentheses the two groups are
      split apart, and the chain groups to the right. */
  lemma GroupedRestGroupsRight(a: string, x: string, c: string)
    requires a != [] && PlainChars(a) && a[0] != '!'
    requires x != [] && PlainChars(x) && x[0] != '!'
    requires c != [] && PlainChars(c) && c[0] != '!'
    ensures var inner := ("(" + x + ")") + " " + "&&" + " " + ("(" + c + ")");
            BuildTree(a + " " + "&&" + " " + ("(" + inner + ")")) == Success(And(Literal(a), And(Literal(x), Literal(c))))
  {
    var op := "&&";
    var gx, gc := "(" + x + ")", "(" + c + ")";
    var inner := gx + " " + op + " " + gc;
    NameIsToken(a);
    NameIsToken(op);
    BuildTreeToken(a);
    assert RemoveWrappingParentheses(a) == a && RemoveWrappingParentheses(op) == op;
    assert BuildTree(inner) == Success(And(Literal(x), Literal(c))) by {
      NameIsToken(x);
      NameIsToken(c);
      BuildTreeToken(x);
      BuildTreeToken(c);
      GroupIsToken(x);
      GroupIsToken(c);
      RemoveWrappingParenthesesInverse(x);
      RemoveWrappingParenthesesInverse(c);
      BuildTreeBinary(gx, op, gc);
    }
    RemoveWrappingParenthesesInverse(inner);
    BuildTreeBinary(a, op, "(" + inner + ")");
  }

  /** A group as the middle operand keeps the chain grouped to the right as
      long as the rest does not also end in `)`: `a && (x) && c` is
      `AND(a, AND(x, c))`. */
  lemma GroupedMiddleOperandGroupsRight(a: string, x: string, c: string)
    requires a != [] && PlainChars(a) && a[0] != '!'
    requires x != [] && PlainChars(x) && x[0] != '!'
    requires c != [] && PlainChars(c) && c[0] != '!'
    ensures var rest := ("(" + x + ")") + " " + "&&" + " " + c;
            BuildTree(a + " " + "&&" + " " + rest) == Success(And(Literal(a), And(Literal(x), Literal(c))))
  {
    var op := "&&";
    var rest := ("(" + x + ")") + " " + op + " " + c;
    NameIsToken(a);
    NameIsToken(op);
    BuildTreeToken(a);
    assert RemoveWrappingParentheses(a) == a && RemoveWrappingParentheses(op) == op;
    GroupThenNameIsKept(x, c);
    BuildTreeBinary(a, op, rest);
  }

  /** The rest `(x) && c` keeps its parentheses, since it does not end in `)`,
      and builds `AND(x, c)`. */
  lemma GroupThenNameIsKept(x: string, c: string)
    requires x != [] && PlainChars(x) && x[0] != '!'
    requires c != [] && PlainChars(c) && c[0] != '!'
    ensures var rest := ("(" + x + ")") + " " + "&&" + " " + c;
            RemoveWrappingParentheses(rest) == rest && BuildTree(rest) == Success(And(Literal(x), Literal(c)))
  {
    var op := "&&";
    var gx := "(" + x + ")";
    var rest := gx + " " + op + " " + c;
    assert BuildTree(rest) == Success(And(Literal(x), Literal(c))) by {
      NameIsToken(op);
      NameIsToken(x);
      NameIsToken(c);
      BuildTreeToken(x);
      BuildTreeToken(c);
      GroupIsToken(x);
      RemoveWrappingParenthesesInverse(x);
      assert RemoveWrappingParentheses(c) == c && RemoveWrappingParentheses(op) == op;
      BuildTreeBinary(gx, op, c);
    }
    assert rest[|rest| - 1] != ')' by {
      assert rest == (gx + " " + op + " ") + c;
      assert rest[|rest| - 1] == c[|c| - 1];
    }
  }

  /** A blank expression (the empty string included) splits into no part and
      makes `buildBinary` panic. */
  lemma BlankPanics(expression: string)
    requires AllSpaces(expression)
    ensures BuildTree(expression) == Panic
  {
    SplitEmptyIffBlank(expression);
  }

  /** Two tokens with no operand after them make `buildBinary` panic. */
  lemma TwoTokensPanic(a: string, b: string)
    requires IsToken(a) && IsToken(b)
    ensures BuildTree(a + " " + b) == Panic
  {
    SplitTwoTokens(a, b);
  }

  /** A trailing operator and space leave an empty right operand, which panics
      once the left operand has been built. */
  lemma TrailingOperatorPanics(a: string, op: string)
    requires IsToken(a) && IsToken(op)
    requires BuildTree(RemoveWrappingParentheses(a)).Success?
    ensures BuildTree(a + " " + op + " ") == Panic
  {
    assert a + " " + op + " " == a + " " + op + " " + "";
    BuildTreeBinary(a, op, "");
    BlankPanics("");
  }

  // ---------------------------------------------------------------------------
  // Evaluation (solver.go: Node.Solve, Node.value)
  // ---------------------------------------------------------------------------

  /** `Node.value`: a boolean spelling first (the context is then never read),
      otherwise the context entry, otherwise unknown (`None`). */
  function LiteralValue(raw: string, context: map<string, bool>): (r: Option<bool>)
    ensures ParseBool(raw).Some? ==> r == ParseBool(raw)
    ensures ParseBool(raw).None? && raw in context ==> r == Some(context[raw])
    ensures r.None? <==> raw !in TrueSpellings + FalseSpellings && raw !in context
  {
    var b := ParseBool(raw);
    if b.Some? then b
    else if raw in context then Some(context[raw])
    else None
  }

  /** `Node.Solve`: both children are always evaluated, left first, and the
      first error met is the result. Every error it returns is, by kind, an
      unknown variable naming one of the tree's literals. */
  function Solve(n: Node, context: map<string, bool>): (r: Result<bool, Error>)
    ensures r.Err? ==> AsUnknownVariable(r.error).Some? && AsUnknownVariable(r.error).value in Leaves(n)
  {
    match n
    case Literal(raw) =>
      var v := LiteralValue(raw, context);
      if v.None? then Err(NewUnknownVariableError(raw)) else Ok(v.value)
    case Not(l) =>
      var x := Solve(l, context);
      if x.Err? then Err(Wrapped(SolveNot, x.error)) else Ok(!x.value)
    case And(l, r) =>
      var x := Solve(l, context);
      if x.Err? then Err(Wrapped(SolveLeft, x.error))
      else
        var y := Solve(r, context);
        if y.Err? then Err(Wrapped(SolveRight, y.error)) else Ok(x.value && y.value)
    case Or(l, r) =>
      var x := Solve(l, context);
      if x.Err? then Err(Wrapped(SolveLeft, x.error))
      else
        var y := Solve(r, context);
        if y.Err? then Err(Wrapped(SolveRight, y.error)) else Ok(x.value || y.value)
  }

  /** The literal texts of a tree, left to right. */
  function Leaves(n: Node): seq<string>
  {
    match n
    case Literal(raw) => [raw]
    case Not(l) => Leaves(l)
    case And(l, r) => Leaves(l) + Leaves(r)
    case Or(l, r) => Leaves(l) + Leaves(r)
  }

  /** The leftmost literal that resolves to nothing, if there is one. */
  function FirstUnknown(raws: seq<string>, context: map<string, bool>): (r: Option<string>)
    ensures r.None? <==> forall i | 0 <= i < |raws| :: LiteralValue(raws[i], context).Some?
    ensures r.Some? ==> r.value in raws && LiteralValue(r.value, context).None?
  {
    if raws == [] then None
    else if LiteralValue(raws[0], context).None? then Some(raws[0])
    else FirstUnknown(raws[1..], context)
  }

  lemma {:induction false} FirstUnknownAppend(a: seq<string>, b: seq<string>, context: map<string, bool>)
    ensures FirstUnknown(a + b, context) ==
            if FirstUnknown(a, context).Some? then FirstUnknown(a, context) else FirstUnknown(b, context)
  {
    if a == [] {
      assert a + b == b;
    } else {
      assert (a + b)[1..] == a[1..] + b;
      FirstUnknownAppend(a[1..], b, context);
    }
  }

  /** `Solve` fails exactly when some literal resolves to nothing, on either side
      of any operator (there is no short-circuit), and the failure is an
      unknown-variable error naming the leftmost such literal. */
  lemma {:induction false} SolveFailsOnUnknown(n: Node, context: map<string, bool>)
    ensures Solve(n, context).Ok? <==> FirstUnknown(Leaves(n), context).None?
    ensures Solve(n, context).Err? ==> AsUnknownVariable(Solve(n, context).error) == FirstUnknown(Leaves(n), context)
  {
    match n
    case Literal(raw) =>
    case Not(l) =>
      SolveFailsOnUnknown(l, context);
    case And(l, r) =>
      SolveFailsOnUnknown(l, context);
      SolveFailsOnUnknown(r, context);
      FirstUnknownAppend(Leaves(l), Leaves(r), context);
    case Or(l, r) =>
      SolveFailsOnUnknown(l, context);
      SolveFailsOnUnknown(r, context);
      FirstUnknownAppend(Leaves(l), Leaves(r), context);
  }

  /** The result of `Solve` depends only on how the tree's own literals resolve. */
  lemma {:induction false} SolveDependsOnlyOnLeaves(n: Node, c1: map<string, bool>, c2: map<string, bool>)
    requires forall raw | raw in Leaves(n) :: LiteralValue(raw, c1) == LiteralValue(raw, c2)
    ensures Solve(n, c1) == Solve(n, c2)
  {
    match n
    case Literal(raw) =>
    case Not(l) =>
      SolveDependsOnlyOnLeaves(l, c1, c2);
    case And(l, r) =>
      SolveDependsOnlyOnLeaves(l, c1, c2);
      SolveDependsOnlyOnLeaves(r, c1, c2);
    case Or(l, r) =>
      SolveDependsOnlyOnLeaves(l, c1, c2);
      SolveDependsOnlyOnLeaves(r, c1, c2);
  }

  /** Adding decisions to the context never changes a result `Solve` already reached. */
  lemma SolveStableUnderExtension(n: Node, c1: map<string, bool>, c2: map<string, bool>)
    requires forall k | k in c1 :: k in c2 && c2[k] == c1[k]
    requires Solve(n, c1).Ok?
    ensures Solve(n, c2) == Solve(n, c1)
  {
    SolveFailsOnUnknown(n, c1);
    forall raw | raw in Leaves(n) ensures LiteralValue(raw, c1) == LiteralValue(raw, c2) {
      var i :| 0 <= i < |Leaves(n)| && Leaves(n)[i] == raw;
    }
    SolveDependsOnlyOnLeaves(n, c1, c2);
  }
}
