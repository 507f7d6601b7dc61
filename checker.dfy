/** The license checker: a context of license decisions, the verdict on one
    license expression, and the report that sorts a project's dependencies into
    allowed, disallowed and unknown. */
module Checker {
  import opened Wrappers
  import opened StrConv
  import opened BoolExpr

  // ---------------------------------------------------------------------------
  // Errors (checker.go)
  // ---------------------------------------------------------------------------

  datatype CheckError =
    | UnknownLicense(license: string)                 // UnknownLicenseError
    | ParseLicense(license: string, cause: Error)     // "failed to parse license '...'"
    | SolveLicense(license: string, cause: Error)     // "failed to solve license '...'"
    | CheckLicense(wrapped: CheckError)               // "failed to check if license is allowed or not"

  /** `UnknownLicenseError.Error()`: the whole license expression, quoted. */
  function UnknownLicenseMessage(license: string): (m: string)
    ensures |m| == |"unknown license '"| + |license| + 1
    ensures m[..|"unknown license '"|] == "unknown license '" && m[|m| - 1] == '\''
    ensures m[|"unknown license '"|..|m| - 1] == license
  {
    "unknown license '" + license + "'"
  }

  /** The innermost error under the "failed to check" wrappers. */
  function Unwrapped(e: CheckError): (r: CheckError)
    ensures !r.CheckLicense?
  {
    if e.CheckLicense? then Unwrapped(e.wrapped) else e
  }

  /** `errors.As(err, &*UnknownLicenseError)`: looks through every `%w` wrapper,
      so it finds an unknown license exactly when the chain ends in one. A
      parse or solve error is not looked into: its cause is another kind. */
  function AsUnknownLicense(e: CheckError): (r: Option<string>)
    ensures r.Some? <==> Unwrapped(e).UnknownLicense?
    ensures r.Some? ==> r.value == Unwrapped(e).license
  {
    match e
    case UnknownLicense(license) => Some(license)
    case ParseLicense(_, _) => None
    case SolveLicense(_, _) => None
    case CheckLicense(inner) => AsUnknownLicense(inner)
  }

  // ---------------------------------------------------------------------------
  // Decisions (checker.go: buildContext, IsLicenseAllowed)
  // ---------------------------------------------------------------------------

  /** `buildContext`: every allowed license maps to true and every disallowed one
      to false; a license on both lists is disallowed, because that list is
      written second. */
  method BuildContext(approvedLicenses: seq<string>, disallowedLicenses: seq<string>)
    returns (context: map<string, bool>)
    ensures context.Keys == (set l | l in approvedLicenses) + (set l | l in disallowedLicenses)
    ensures forall l | l in disallowedLicenses :: context[l] == false
    ensures forall l | l in approvedLicenses && l !in disallowedLicenses :: context[l] == true
  {
    context := map[];
    for i := 0 to |approvedLicenses|
      invariant context.Keys == set l | l in approvedLicenses[..i]
      invariant forall l | l in context :: context[l]
    {
      assert approvedLicenses[..i + 1] == approvedLicenses[..i] + [approvedLicenses[i]];
      context := context[approvedLicenses[i] := true];
    }
    assert approvedLicenses[..|approvedLicenses|] == approvedLicenses;
    for i := 0 to |disallowedLicenses|
      invariant context.Keys == (set l | l in approvedLicenses) + (set l | l in disallowedLicenses[..i])
      invariant forall l | l in disallowedLicenses[..i] :: context[l] == false
      invariant forall l | l in context && l !in disallowedLicenses[..i] :: context[l] == true
    {
      assert disallowedLicenses[..i + 1] == disallowedLicenses[..i] + [disallowedLicenses[i]];
      context := context[disallowedLicenses[i] := false];
    }
    assert disallowedLicenses[..|disallowedLicenses|] == disallowedLicenses;
  }

  /** `IsLicenseAllowed`, with the checker's context as a parameter: parse the
      expression, solve it, and turn an unknown variable anywhere into an
      unknown-license error that names the whole expression. */
  function IsLicenseAllowed(context: map<string, bool>, license: string): (r: Outcome<bool, CheckError>)
    ensures r.Failure? && AsUnknownLicense(r.error).Some? ==> r.error == UnknownLicense(license)
    ensures New(license).Failure? ==> r == Failure(ParseLicense(license, New(license).error))
    ensures r.Panic? <==> New(license).Panic?
    ensures r.Failure? ==> r.error.UnknownLicense? || r.error.ParseLicense?
  {
    match New(license)
    case Panic => Panic
    case Failure(e) => Failure(ParseLicense(license, e))
    case Success(node) =>
      match Solve(node, context)
      case Err(e) => if AsUnknownVariable(e).Some? then Failure(UnknownLicense(license)) else Failure(SolveLicense(license, e))
      case Ok(value) => Success(value)
  }

  /** Once the expression parses, the verdict is an unknown license exactly when
      some literal of it is neither a boolean spelling nor in the context, and
      otherwise the value of the tree; the "failed to solve" path is never taken. */
  lemma ParsedLicenseVerdict(context: map<string, bool>, license: string)
    requires New(license).Success?
    ensures var tree := New(license).value;
            FirstUnknown(Leaves(tree), context).Some? ==> IsLicenseAllowed(context, license) == Failure(UnknownLicense(license))
    ensures var tree := New(license).value;
            FirstUnknown(Leaves(tree), context).None? ==>
              Solve(tree, context).Ok? && IsLicenseAllowed(context, license) == Success(Solve(tree, context).value)
  {
    SolveFailsOnUnknown(New(license).value, context);
  }

  /** A plain license name: no spaces, no parentheses, no leading `!`, and not
      a boolean spelling. */
  predicate PlainName(w: string)
  {
    w != [] && PlainChars(w) && w[0] != '!' && w !in TrueSpellings + FalseSpellings
  }

  /** A plain license name is allowed exactly as the context says, and unknown
      when the context has no entry. */
  lemma LicenseNameVerdict(context: map<string, bool>, license: string)
    requires PlainName(license)
    ensures IsLicenseAllowed(context, license) ==
              if license in context then Success(context[license]) else Failure(UnknownLicense(license))
  {
    NameIsToken(license);
    BuildTreeToken(license);
  }

  /** Two plain names joined by `&&` or `||`: an unknown license when either
      name is missing from the context, otherwise the operator over the two
      decisions. */
  lemma JoinedNamesVerdict(context: map<string, bool>, a: string, op: string, b: string)
    requires PlainName(a) && PlainName(b)
    requires op == "&&" || op == "||"
    ensures var license := a + " " + op + " " + b;
            IsLicenseAllowed(context, license) ==
              if a !in context || b !in context then Failure(UnknownLicense(license))
              else Success(if op == "&&" then context[a] && context[b] else context[a] || context[b])
  {
    BuildTreeOfNames(a, op, b);
    var license := a + " " + op + " " + b;
    var tree := if op == "&&" then And(Literal(a), Literal(b)) else Or(Literal(a), Literal(b));
    assert New(license) == Success(tree);
    assert LiteralValue(a, context) == if a in context then Some(context[a]) else None;
    assert LiteralValue(b, context) == if b in context then Some(context[b]) else None;
    assert Solve(Literal(a), context) == if a in context then Ok(context[a]) else Err(UnknownVariable(a));
    assert Solve(Literal(b), context) == if b in context then Ok(context[b]) else Err(UnknownVariable(b));
    if a !in context {
      assert Solve(tree, context) == Err(Wrapped(SolveLeft, UnknownVariable(a)));
    } else if b !in context {
      assert Solve(tree, context) == Err(Wrapped(SolveRight, UnknownVariable(b)));
    }
  }

  /** A second space after `&&` or `||` makes the right-hand literal start with
      a space; unless the context has that spaced name, the whole expression is
      an unknown license, whatever the two names are. */
  lemma ExtraSpaceVerdict(context: map<string, bool>, a: string, op: string, b: string)
    requires a != [] && PlainChars(a) && a[0] != '!'
    requires b != [] && PlainChars(b)
    requires op == "&&" || op == "||"
    requires " " + b !in context
    ensures var license := a + " " + op + "  " + b;
            IsLicenseAllowed(context, license) == Failure(UnknownLicense(license))
  {
    var license := a + " " + op + "  " + b;
    var spaced := " " + b;
    var tree := if op == "&&" then And(Literal(a), Literal(spaced)) else Or(Literal(a), Literal(spaced));
    assert New(license) == Success(tree) by {
      ExtraSpaceAfterOperator(a, op, b);
    }
    assert FirstUnknown(Leaves(tree), context).Some? by {
      assert Leaves(tree) == [a, spaced];
      assert spaced[0] == ' ';
      assert spaced !in TrueSpellings + FalseSpellings;
      assert LiteralValue(Leaves(tree)[1], context).None?;
    }
    ParsedLicenseVerdict(context, license);
  }

  /** Changing the decision for one license leaves the verdict on every
      expression that does not mention it unchanged. */
  lemma UpdateKeepsOtherVerdicts(context: map<string, bool>, changed: string, isAllowed: bool, license: string)
    requires New(license).Success? && changed !in Leaves(New(license).value)
    ensures IsLicenseAllowed(context[changed := isAllowed], license) == IsLicenseAllowed(context, license)
  {
    SolveDependsOnlyOnLeaves(New(license).value, context, context[changed := isAllowed]);
  }

  /** The verdict is one the report can file: a decision or an unknown license. */
  predicate Classifiable(verdict: Outcome<bool, CheckError>)
  {
    verdict.Success? || (verdict.Failure? && AsUnknownLicense(verdict.error).Some?)
  }

  // ---------------------------------------------------------------------------
  // The report (report.go)
  // ---------------------------------------------------------------------------

  /** `m[key] = append(m[key], item)`, a missing key reading as an empty list. */
  function Appended(m: map<string, seq<string>>, key: string, item: string): (r: map<string, seq<string>>)
    ensures r.Keys == m.Keys + {key}
    ensures key in m ==> r[key] == m[key] + [item]
    ensures key !in m ==> r[key] == [item]
    ensures forall k | k in m && k != key :: r[k] == m[k]
  {
    m[key := (if key in m then m[key] else []) + [item]]
  }

  /** The (license, dependency) pairs recorded in one bucket. */
  ghost function Entries(m: map<string, seq<string>>): set<(string, string)>
  {
    set l, d | l in m && d in m[l] :: (l, d)
  }

  /** Appending records exactly one more pair and loses none. */
  lemma EntriesAppended(m: map<string, seq<string>>, key: string, item: string)
    ensures Entries(Appended(m, key, item)) == Entries(m) + {(key, item)}
  {
    var r := Appended(m, key, item);
    forall p | p in Entries(r) ensures p in Entries(m) + {(key, item)} {
      var (l, d) := p;
      if l == key && key in m && d !in m[key] {
        assert d in m[key] + [item];
      }
    }
    assert (key, item) in Entries(r) by {
      assert item in r[key];
    }
    forall p | p in Entries(m) ensures p in Entries(r) {
      var (l, d) := p;
      if l == key {
        assert d in m[key] + [item];
      }
    }
  }

  /** No list holds an item twice, and no list is empty. */
  ghost predicate WellFormedBucket(m: map<string, seq<string>>)
  {
    forall l | l in m :: m[l] != [] && forall i, j | 0 <= i < j < |m[l]| :: m[l][i] != m[l][j]
  }

  class Report {
    var allowed: map<string, seq<string>>
    var disallowed: map<string, seq<string>>
    var unknown: map<string, seq<string>>

    /** `&Report{}`: Go's nil maps are modelled as empty maps. */
    constructor ()
      ensures allowed == map[] && disallowed == map[] && unknown == map[]
    {
      allowed, disallowed, unknown := map[], map[], map[];
    }

    /** `RecordDecision`: allowed when the flag is set, disallowed otherwise. */
    method RecordDecision(license: string, dependency: string, isAllowed: bool)
      modifies this
      ensures isAllowed ==> allowed == Appended(old(allowed), license, dependency) && disallowed == old(disallowed)
      ensures !isAllowed ==> disallowed == Appended(old(disallowed), license, dependency) && allowed == old(allowed)
      ensures unknown == old(unknown)
    {
      if isAllowed {
        RecordAllowed(license, dependency);
      } else {
        RecordDisallowed(license, dependency);
      }
    }

    /** `RecordAllowed`: appends the dependency under its license; the other
        buckets are untouched. */
    method RecordAllowed(license: string, dependency: string)
      modifies this
      ensures allowed == Appended(old(allowed), license, dependency)
      ensures disallowed == old(disallowed) && unknown == old(unknown)
    {
      allowed := Appended(allowed, license, dependency);
    }

    /** `RecordDisallowed`: the same, on the disallowed bucket. */
    method RecordDisallowed(license: string, dependency: string)
      modifies this
      ensures disallowed == Appended(old(disallowed), license, dependency)
      ensures allowed == old(allowed) && unknown == old(unknown)
    {
      disallowed := Appended(disallowed, license, dependency);
    }

    /** `RecordUnknownLicense`: the same, on the unknown bucket. */
    method RecordUnknownLicense(license: string, dependency: string)
      modifies this
      ensures unknown == Appended(old(unknown), license, dependency)
      ensures allowed == old(allowed) && disallowed == old(disallowed)
    {
      unknown := Appended(unknown, license, dependency);
    }

    /** `HasDisallowedLicenses`: some license has a disallowed dependency recorded. */
    function HasDisallowedLicenses(): (r: bool)
      reads this
      ensures r <==> exists l :: l in disallowed
    {
      |disallowed| > 0
    }

    /** `HasUnknownLicenses`: some license has an unknown dependency recorded. */
    function HasUnknownLicenses(): (r: bool)
      reads this
      ensures r <==> exists l :: l in unknown
    {
      |unknown| > 0
    }
  }

  // ---------------------------------------------------------------------------
  // The checker (checker.go)
  // ---------------------------------------------------------------------------

  /** The report's three buckets. */
  datatype Bucket = AllowedBucket | DisallowedBucket | UnknownBucket

  /** Where a verdict is filed: allowed, disallowed or unknown; None when the
      verdict aborts the validation. */
  function BucketOf(verdict: Outcome<bool, CheckError>): (b: Option<Bucket>)
    ensures b.Some? <==> Classifiable(verdict)
    ensures b == Some(UnknownBucket) <==> verdict.Failure? && AsUnknownLicense(verdict.error).Some?
  {
    match verdict
    case Success(isAllowed) => Some(if isAllowed then AllowedBucket else DisallowedBucket)
    case Failure(e) => if AsUnknownLicense(e).Some? then Some(UnknownBucket) else None
    case Panic => None
  }

  /** The pairs (license, dependency) of the dependencies in `done` whose verdict
      goes to `bucket`. */
  ghost function Filed(currentLicenses: map<string, string>, done: set<string>, context: map<string, bool>,
                       bucket: Bucket): set<(string, string)>
  {
    set dep | dep in currentLicenses && dep in done && BucketOf(IsLicenseAllowed(context, currentLicenses[dep])) == Some(bucket)
      :: (currentLicenses[dep], dep)
  }

  /** The three buckets hold exactly the dependencies of `done`, each under its
      own license and in the bucket its verdict picks, and nothing twice. */
  ghost predicate Summarises(allowed: map<string, seq<string>>, disallowed: map<string, seq<string>>,
                             unknown: map<string, seq<string>>,
                             currentLicenses: map<string, string>, done: set<string>, context: map<string, bool>)
  {
    && (forall dep | dep in currentLicenses && dep in done :: Classifiable(IsLicenseAllowed(context, currentLicenses[dep])))
    && Entries(allowed) == Filed(currentLicenses, done, context, AllowedBucket)
    && Entries(disallowed) == Filed(currentLicenses, done, context, DisallowedBucket)
    && Entries(unknown) == Filed(currentLicenses, done, context, UnknownBucket)
    && WellFormedBucket(allowed) && WellFormedBucket(disallowed) && WellFormedBucket(unknown)
  }

  /** The bucket `bucket` after the dependency, whose verdict is `verdict`, is filed. */
  function FileInto(m: map<string, seq<string>>, bucket: Bucket, verdict: Outcome<bool, CheckError>,
                    license: string, dependency: string): map<string, seq<string>>
  {
    if BucketOf(verdict) == Some(bucket) then Appended(m, license, dependency) else m
  }

  /** Filing one more classifiable dependency keeps the summary. */
  lemma FileStep(allowed: map<string, seq<string>>, disallowed: map<string, seq<string>>,
                 unknown: map<string, seq<string>>,
                 currentLicenses: map<string, string>, done: set<string>, context: map<string, bool>,
                 dependency: string)
    requires dependency in currentLicenses && dependency !in done
    requires Summarises(allowed, disallowed, unknown, currentLicenses, done, context)
    requires Classifiable(IsLicenseAllowed(context, currentLicenses[dependency]))
    ensures var license := currentLicenses[dependency];
            var verdict := IsLicenseAllowed(context, license);
            Summarises(FileInto(allowed, AllowedBucket, verdict, license, dependency),
                       FileInto(disallowed, DisallowedBucket, verdict, license, dependency),
                       FileInto(unknown, UnknownBucket, verdict, license, dependency),
                       currentLicenses, done + {dependency}, context)
  {
    var license := currentLicenses[dependency];
    var verdict := IsLicenseAllowed(context, license);
    FileOne(allowed, AllowedBucket, currentLicenses, done, context, dependency);
    FileOne(disallowed, DisallowedBucket, currentLicenses, done, context, dependency);
    FileOne(unknown, UnknownBucket, currentLicenses, done, context, dependency);
  }

  /** One bucket of `FileStep`. */
  lemma FileOne(m: map<string, seq<string>>, bucket: Bucket,
                currentLicenses: map<string, string>, done: set<string>, context: map<string, bool>,
                dependency: string)
    requires dependency in currentLicenses && dependency !in done
    requires Entries(m) == Filed(currentLicenses, done, context, bucket) && WellFormedBucket(m)
    ensures var license := currentLicenses[dependency];
            var m' := FileInto(m, bucket, IsLicenseAllowed(context, license), license, dependency);
            Entries(m') == Filed(currentLicenses, done + {dependency}, context, bucket) && WellFormedBucket(m')
  {
    var license := currentLicenses[dependency];
    var verdict := IsLicenseAllowed(context, license);
    FiledGrows(currentLicenses, done, context, bucket, dependency);
    if BucketOf(verdict) == Some(bucket) {
      EntriesAppended(m, license, dependency);
      AppendedWellFormed(m, license, dependency);
    }
  }

  /** Visiting one more dependency files it in its own bucket and nowhere else. */
  lemma FiledGrows(currentLicenses: map<string, string>, done: set<string>, context: map<string, bool>,
                   bucket: Bucket, dependency: string)
    requires dependency in currentLicenses && dependency !in done
    ensures var license := currentLicenses[dependency];
            Filed(currentLicenses, done + {dependency}, context, bucket) ==
              Filed(currentLicenses, done, context, bucket)
              + (if BucketOf(IsLicenseAllowed(context, license)) == Some(bucket) then {(license, dependency)} else {})
    ensures (currentLicenses[dependency], dependency) !in Filed(currentLicenses, done, context, bucket)
  {
  }

  /** Appending a pair not yet recorded keeps the bucket well formed. */
  lemma AppendedWellFormed(m: map<string, seq<string>>, license: string, dependency: string)
    requires WellFormedBucket(m) && (license, dependency) !in Entries(m)
    ensures WellFormedBucket(Appended(m, license, dependency))
  {
    if license in m {
      forall i | 0 <= i < |m[license]| ensures m[license][i] != dependency {
        assert (license, m[license][i]) in Entries(m);
      }
    }
  }

  class LicenseChecker {
    var context: map<string, bool>

    /** `NewFromMap`. */
    constructor NewFromMap(context: map<string, bool>)
      ensures this.context == context
    {
      this.context := context;
    }

    /** `NewFromLists`: the context `buildContext` makes of the two lists. */
    constructor NewFromLists(allowedLicenses: seq<string>, disallowedLicenses: seq<string>)
      ensures context.Keys == (set l | l in allowedLicenses) + (set l | l in disallowedLicenses)
      ensures forall l | l in disallowedLicenses :: context[l] == false
      ensures forall l | l in allowedLicenses && l !in disallowedLicenses :: context[l] == true
    {
      var c := BuildContext(allowedLicenses, disallowedLicenses);
      context := c;
    }

    /** `Update`: records one decision and leaves every other license alone. */
    method Update(license: string, isAllowed: bool)
      modifies this
      ensures context == old(context)[license := isAllowed]
    {
      context := context[license := isAllowed];
    }

    /** `ValidateCurrentLicenses`: files every dependency, in map order (any
        order), under its license in exactly one bucket, by the verdict on that
        license; any other error aborts with no report. */
    method ValidateCurrentLicenses(currentLicenses: map<string, string>) returns (r: Outcome<Report, CheckError>)
      ensures r.Success? ==> fresh(r.value)
      ensures r.Success? ==>
                Summarises(r.value.allowed, r.value.disallowed, r.value.unknown, currentLicenses, currentLicenses.Keys, context)
      ensures r.Failure? ==> exists dep | dep in currentLicenses ::
                var verdict := IsLicenseAllowed(context, currentLicenses[dep]);
                !Classifiable(verdict) && verdict.Failure? && r.error == CheckLicense(verdict.error)
      ensures r.Panic? ==> exists dep | dep in currentLicenses :: IsLicenseAllowed(context, currentLicenses[dep]).Panic?
    {
      var report := new Report();
      var done: set<string> := {};
      while done != currentLicenses.Keys
        invariant done <= currentLicenses.Keys
        invariant fresh(report)
        invariant Summarises(report.allowed, report.disallowed, report.unknown, currentLicenses, done, context)
        decreases currentLicenses.Keys - done
      {
        var dependency :| dependency in currentLicenses && dependency !in done;
        var license := currentLicenses[dependency];
        var verdict := IsLicenseAllowed(context, license);
        if verdict.Panic? {
          return Panic;
        } else if verdict.Failure? && AsUnknownLicense(verdict.error).Some? {
          FileStep(report.allowed, report.disallowed, report.unknown, currentLicenses, done, context, dependency);
          report.RecordUnknownLicense(license, dependency);
        } else if verdict.Failure? {
          return Failure(CheckLicense(verdict.error));
        } else {
          FileStep(report.allowed, report.disallowed, report.unknown, currentLicenses, done, context, dependency);
          report.RecordDecision(license, dependency, verdict.value);
        }
        done := done + {dependency};
      }
      return Success(report);
    }
  }

  /** What a successful validation tells its caller: the report has a disallowed
      license exactly when some dependency's license is disallowed, and an
      unknown one exactly when some dependency's license is unknown. */
  lemma SummaryVerdicts(allowed: map<string, seq<string>>, disallowed: map<string, seq<string>>,
                        unknown: map<string, seq<string>>,
                        currentLicenses: map<string, string>, context: map<string, bool>)
    requires Summarises(allowed, disallowed, unknown, currentLicenses, currentLicenses.Keys, context)
    ensures (exists l :: l in disallowed) <==>
              exists dep | dep in currentLicenses :: IsLicenseAllowed(context, currentLicenses[dep]) == Success(false)
    ensures (exists l :: l in unknown) <==>
              exists dep | dep in currentLicenses :: IsLicenseAllowed(context, currentLicenses[dep]) == Failure(UnknownLicense(currentLicenses[dep]))
  {
    var keys := currentLicenses.Keys;
    if l :| l in disallowed {
      var d := disallowed[l][0];
      assert (l, d) in Entries(disallowed);
    }
    if dep :| dep in currentLicenses && IsLicenseAllowed(context, currentLicenses[dep]) == Success(false) {
      assert (currentLicenses[dep], dep) in Filed(currentLicenses, keys, context, DisallowedBucket);
    }
    if l :| l in unknown {
      var d := unknown[l][0];
      assert (l, d) in Entries(unknown);
    }
    if dep :| dep in currentLicenses && IsLicenseAllowed(context, currentLicenses[dep]) == Failure(UnknownLicense(currentLicenses[dep])) {
      assert (currentLicenses[dep], dep) in Filed(currentLicenses, keys, context, UnknownBucket);
    }
  }
}
