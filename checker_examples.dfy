/** The checker's documented cases, stated over the model. */
module CheckerExamples {
  import opened Wrappers
  import opened StrConv
  import opened BoolExpr
  import opened Checker

  /** The context that `NewFromLists(["MIT", "Apache-2.0"], ["GPL-3.0"])` builds. */
  predicate IsTestContext(context: map<string, bool>)
  {
    context == map["MIT" := true, "Apache-2.0" := true, "GPL-3.0" := false]
  }

  /** The lists give exactly that context. */
  lemma ListsGiveTestContext(context: map<string, bool>)
    requires context.Keys == (set l | l in ["MIT", "Apache-2.0"]) + (set l | l in ["GPL-3.0"])
    requires forall l | l in ["GPL-3.0"] :: context[l] == false
    requires forall l | l in ["MIT", "Apache-2.0"] && l !in ["GPL-3.0"] :: context[l] == true
    ensures IsTestContext(context)
  {
    assert "MIT" in ["MIT", "Apache-2.0"] && "Apache-2.0" in ["MIT", "Apache-2.0"];
    assert "MIT" !in ["GPL-3.0"] && "Apache-2.0" !in ["GPL-3.0"];
    assert "GPL-3.0" in ["GPL-3.0"];
  }

  /** The license names of the tests are plain names. */
  lemma TestNamesArePlain(mit: string, apache: string, gpl3: string, gpl2: string)
    requires mit == "MIT" && apache == "Apache-2.0" && gpl3 == "GPL-3.0" && gpl2 == "GPL-2.0"
    ensures PlainName(mit) && PlainName(apache) && PlainName(gpl3) && PlainName(gpl2)
  {
    NoSpellingOfLength(mit);
    NoSpellingOfLength(apache);
    NoSpellingOfLength(gpl3);
    NoSpellingOfLength(gpl2);
  }

  /** A single known name is decided by the context. */
  lemma KnownNames(context: map<string, bool>)
    requires IsTestContext(context)
    ensures IsLicenseAllowed(context, "MIT") == Success(true)
    ensures IsLicenseAllowed(context, "GPL-3.0") == Success(false)
  {
    var mit, apache, gpl3, gpl2 := "MIT", "Apache-2.0", "GPL-3.0", "GPL-2.0";
    TestNamesArePlain(mit, apache, gpl3, gpl2);
    LicenseNameVerdict(context, mit);
    LicenseNameVerdict(context, gpl3);
  }

  /** Both operands allowed: the conjunction is allowed. */
  lemma KnownConjunction(context: map<string, bool>, license: string)
    requires IsTestContext(context) && license == "MIT" + " " + "&&" + " " + "Apache-2.0"
    ensures IsLicenseAllowed(context, license) == Success(true)
  {
    var mit, apache, gpl3, gpl2 := "MIT", "Apache-2.0", "GPL-3.0", "GPL-2.0";
    var joined := mit + " " + "&&" + " " + apache;
    assert IsLicenseAllowed(context, joined) == Success(true) by {
      TestNamesArePlain(mit, apache, gpl3, gpl2);
      assert mit in context && apache in context && context[mit] && context[apache];
      JoinedNamesVerdict(context, mit, "&&", apache);
    }
    assert license == joined;
  }

  /** One operand allowed: the disjunction is allowed. */
  lemma KnownDisjunction(context: map<string, bool>, license: string)
    requires IsTestContext(context) && license == "MIT" + " " + "||" + " " + "GPL-3.0"
    ensures IsLicenseAllowed(context, license) == Success(true)
  {
    var mit, apache, gpl3, gpl2 := "MIT", "Apache-2.0", "GPL-3.0", "GPL-2.0";
    var joined := mit + " " + "||" + " " + gpl3;
    assert IsLicenseAllowed(context, joined) == Success(true) by {
      TestNamesArePlain(mit, apache, gpl3, gpl2);
      assert mit in context && gpl3 in context && context[mit];
      JoinedNamesVerdict(context, mit, "||", gpl3);
    }
    assert license == joined;
  }

  /** With empty lists, every expression that parses and has a literal that is
      no boolean spelling is an unknown license as a whole. */
  lemma EmptyListsUnknown(context: map<string, bool>, license: string)
    requires context == map[] && New(license).Success?
    requires exists raw | raw in Leaves(New(license).value) :: raw !in TrueSpellings + FalseSpellings
    ensures IsLicenseAllowed(context, license) == Failure(UnknownLicense(license))
  {
    var raw :| raw in Leaves(New(license).value) && raw !in TrueSpellings + FalseSpellings;
    assert LiteralValue(raw, context).None?;
    ParsedLicenseVerdict(context, license);
  }

  /** With empty lists the test's name `unknown` is an unknown license. */
  lemma OnlyUnknownLicenses(context: map<string, bool>)
    requires context == map[]
    ensures IsLicenseAllowed(context, "unknown") == Failure(UnknownLicense("unknown"))
  {
    var name := "unknown";
    NoSpellingOfLength(name);
    LicenseNameVerdict(context, name);
  }

  /** An unknown name inside an expression makes the whole expression the
      unknown license, not the name. */
  lemma UnknownNameInExpression(context: map<string, bool>, license: string)
    requires IsTestContext(context) && license == "MIT" + " " + "&&" + " " + "GPL-2.0"
    ensures IsLicenseAllowed(context, license) == Failure(UnknownLicense(license))
  {
    var mit, apache, gpl3, gpl2 := "MIT", "Apache-2.0", "GPL-3.0", "GPL-2.0";
    var joined := mit + " " + "&&" + " " + gpl2;
    assert IsLicenseAllowed(context, joined) == Failure(UnknownLicense(joined)) by {
      TestNamesArePlain(mit, apache, gpl3, gpl2);
      assert gpl2 !in context;
      JoinedNamesVerdict(context, mit, "&&", gpl2);
    }
    assert license == joined;
  }

  /** A second space after the operator becomes part of the right-hand license
      name, which the context then does not know. */
  lemma ExtraSpaceMakesUnknown(context: map<string, bool>, license: string)
    requires IsTestContext(context) && license == "MIT" + " " + "&&" + "  " + "Apache-2.0"
    ensures IsLicenseAllowed(context, license) == Failure(UnknownLicense(license))
  {
    var a, b := "MIT", "Apache-2.0";
    var joined := a + " " + "&&" + "  " + b;
    assert IsLicenseAllowed(context, joined) == Failure(UnknownLicense(joined)) by {
      assert " " + b !in context;
      ExtraSpaceVerdict(context, a, "&&", b);
    }
    assert license == joined;
  }

  /** A parse error is reported as such, never as an unknown license. */
  lemma ParseFailureIsNotUnknown(context: map<string, bool>, license: string)
    requires New(license).Failure?
    ensures IsLicenseAllowed(context, license).Failure?
    ensures AsUnknownLicense(IsLicenseAllowed(context, license).error) == None
  {
  }

  /** A name flipped by `Update` is decided the new way. */
  lemma UpdatedNameVerdict(context: map<string, bool>, license: string, isAllowed: bool)
    requires PlainName(license)
    ensures IsLicenseAllowed(context[license := isAllowed], license) == Success(isAllowed)
  {
    LicenseNameVerdict(context[license := isAllowed], license);
  }

  /** The five dependencies of the validation test. */
  predicate IsTestDependencies(currentLicenses: map<string, string>)
  {
    currentLicenses == map["some-dependency-1" := "MIT", "some-dependency-2" := "MIT",
                           "some-dependency-3" := "Apache-2.0", "some-dependency-4" := "GPL-2.0",
                           "some-dependency-5" := "GPL-3.0"]
  }

  /** Where each test dependency is filed. */
  lemma TestDependencyBuckets(currentLicenses: map<string, string>, context: map<string, bool>, dep: string)
    requires IsTestContext(context) && IsTestDependencies(currentLicenses) && dep in currentLicenses
    ensures BucketOf(IsLicenseAllowed(context, currentLicenses[dep])) ==
              if currentLicenses[dep] == "GPL-3.0" then Some(DisallowedBucket)
              else if currentLicenses[dep] == "GPL-2.0" then Some(UnknownBucket)
              else Some(AllowedBucket)
  {
    var license := currentLicenses[dep];
    var mit, apache, gpl3, gpl2 := "MIT", "Apache-2.0", "GPL-3.0", "GPL-2.0";
    TestNamesArePlain(mit, apache, gpl3, gpl2);
    assert license in {mit, apache, gpl2, gpl3};
    LicenseNameVerdict(context, license);
  }

  /** Every test dependency's bucket, for all of them at once. */
  lemma AllTestDependencyBuckets(currentLicenses: map<string, string>, context: map<string, bool>)
    requires IsTestContext(context) && IsTestDependencies(currentLicenses)
    ensures forall dep | dep in currentLicenses ::
              BucketOf(IsLicenseAllowed(context, currentLicenses[dep])) ==
                if currentLicenses[dep] == "GPL-3.0" then Some(DisallowedBucket)
                else if currentLicenses[dep] == "GPL-2.0" then Some(UnknownBucket)
                else Some(AllowedBucket)
  {
    forall dep | dep in currentLicenses
      ensures BucketOf(IsLicenseAllowed(context, currentLicenses[dep])) ==
                if currentLicenses[dep] == "GPL-3.0" then Some(DisallowedBucket)
                else if currentLicenses[dep] == "GPL-2.0" then Some(UnknownBucket)
                else Some(AllowedBucket)
    {
      TestDependencyBuckets(currentLicenses, context, dep);
    }
  }

  lemma TestAllowedFiled(currentLicenses: map<string, string>, context: map<string, bool>)
    requires IsTestContext(context) && IsTestDependencies(currentLicenses)
    ensures Filed(currentLicenses, currentLicenses.Keys, context, AllowedBucket) ==
              {("MIT", "some-dependency-1"), ("MIT", "some-dependency-2"), ("Apache-2.0", "some-dependency-3")}
  {
    var f := Filed(currentLicenses, currentLicenses.Keys, context, AllowedBucket);
    var expected := {("MIT", "some-dependency-1"), ("MIT", "some-dependency-2"), ("Apache-2.0", "some-dependency-3")};
    assert f <= expected by {
      AllowedFiledWithin(currentLicenses, context);
    }
    assert expected <= f by {
      FiledWitness(currentLicenses, context, AllowedBucket, "some-dependency-1");
      FiledWitness(currentLicenses, context, AllowedBucket, "some-dependency-2");
      FiledWitness(currentLicenses, context, AllowedBucket, "some-dependency-3");
    }
  }

  /** Only the dependencies under MIT and Apache-2.0 are filed as allowed. */
  lemma AllowedFiledWithin(currentLicenses: map<string, string>, context: map<string, bool>)
    requires IsTestContext(context) && IsTestDependencies(currentLicenses)
    ensures forall p | p in Filed(currentLicenses, currentLicenses.Keys, context, AllowedBucket) ::
              p in {("MIT", "some-dependency-1"), ("MIT", "some-dependency-2"), ("Apache-2.0", "some-dependency-3")}
  {
    forall p | p in Filed(currentLicenses, currentLicenses.Keys, context, AllowedBucket)
      ensures p in {("MIT", "some-dependency-1"), ("MIT", "some-dependency-2"), ("Apache-2.0", "some-dependency-3")}
    {
      var dep :| dep in currentLicenses && BucketOf(IsLicenseAllowed(context, currentLicenses[dep])) == Some(AllowedBucket)
                 && p == (currentLicenses[dep], dep);
      TestDependencyBuckets(currentLicenses, context, dep);
      AllowedTestDependency(currentLicenses, dep);
    }
  }

  /** The test dependencies under neither GPL license are the three under MIT
      and Apache-2.0. */
  lemma AllowedTestDependency(currentLicenses: map<string, string>, dep: string)
    requires IsTestDependencies(currentLicenses) && dep in currentLicenses
    requires currentLicenses[dep] != "GPL-3.0" && currentLicenses[dep] != "GPL-2.0"
    ensures (currentLicenses[dep], dep) in
              {("MIT", "some-dependency-1"), ("MIT", "some-dependency-2"), ("Apache-2.0", "some-dependency-3")}
  {
  }

  lemma TestDisallowedFiled(currentLicenses: map<string, string>, context: map<string, bool>)
    requires IsTestContext(context) && IsTestDependencies(currentLicenses)
    ensures Filed(currentLicenses, currentLicenses.Keys, context, DisallowedBucket) == {("GPL-3.0", "some-dependency-5")}
  {
    var f := Filed(currentLicenses, currentLicenses.Keys, context, DisallowedBucket);
    forall p | p in f ensures p == ("GPL-3.0", "some-dependency-5") {
      var dep :| dep in currentLicenses && BucketOf(IsLicenseAllowed(context, currentLicenses[dep])) == Some(DisallowedBucket)
                 && p == (currentLicenses[dep], dep);
      TestDependencyBuckets(currentLicenses, context, dep);
    }
    FiledWitness(currentLicenses, context, DisallowedBucket, "some-dependency-5");
  }

  lemma TestUnknownFiled(currentLicenses: map<string, string>, context: map<string, bool>)
    requires IsTestContext(context) && IsTestDependencies(currentLicenses)
    ensures Filed(currentLicenses, currentLicenses.Keys, context, UnknownBucket) == {("GPL-2.0", "some-dependency-4")}
  {
    var f := Filed(currentLicenses, currentLicenses.Keys, context, UnknownBucket);
    forall p | p in f ensures p == ("GPL-2.0", "some-dependency-4") {
      var dep :| dep in currentLicenses && BucketOf(IsLicenseAllowed(context, currentLicenses[dep])) == Some(UnknownBucket)
                 && p == (currentLicenses[dep], dep);
      TestDependencyBuckets(currentLicenses, context, dep);
    }
    FiledWitness(currentLicenses, context, UnknownBucket, "some-dependency-4");
  }

  /** A test dependency is filed, under its license, in the bucket its license picks. */
  lemma FiledWitness(currentLicenses: map<string, string>, context: map<string, bool>, bucket: Bucket, dep: string)
    requires IsTestContext(context) && IsTestDependencies(currentLicenses) && dep in currentLicenses
    requires bucket == if currentLicenses[dep] == "GPL-3.0" then DisallowedBucket
                       else if currentLicenses[dep] == "GPL-2.0" then UnknownBucket
                       else AllowedBucket
    ensures (currentLicenses[dep], dep) in Filed(currentLicenses, currentLicenses.Keys, context, bucket)
  {
    TestDependencyBuckets(currentLicenses, context, dep);
  }

  /** A validation of the test dependencies that succeeds files them as the
      test expects: MIT and Apache-2.0 allowed, GPL-3.0 disallowed, GPL-2.0 unknown. */
  lemma ValidationOfTestDependencies(allowed: map<string, seq<string>>, disallowed: map<string, seq<string>>,
                                     unknown: map<string, seq<string>>,
                                     currentLicenses: map<string, string>, context: map<string, bool>)
    requires IsTestContext(context) && IsTestDependencies(currentLicenses)
    requires Summarises(allowed, disallowed, unknown, currentLicenses, currentLicenses.Keys, context)
    ensures Entries(allowed) == {("MIT", "some-dependency-1"), ("MIT", "some-dependency-2"),
                                 ("Apache-2.0", "some-dependency-3")}
    ensures Entries(disallowed) == {("GPL-3.0", "some-dependency-5")}
    ensures Entries(unknown) == {("GPL-2.0", "some-dependency-4")}
  {
    TestAllowedFiled(currentLicenses, context);
    TestDisallowedFiled(currentLicenses, context);
    TestUnknownFiled(currentLicenses, context);
  }

  /** The test's validation itself: a checker made from the test's lists
      validates the test dependencies without error, into the buckets the
      test expects. */
  method ValidateTestDependencies() returns (r: Outcome<Report, CheckError>)
    ensures r.Success?
    ensures r.Success? ==> Entries(r.value.allowed) == {("MIT", "some-dependency-1"), ("MIT", "some-dependency-2"),
                                                        ("Apache-2.0", "some-dependency-3")}
    ensures r.Success? ==> Entries(r.value.disallowed) == {("GPL-3.0", "some-dependency-5")}
    ensures r.Success? ==> Entries(r.value.unknown) == {("GPL-2.0", "some-dependency-4")}
  {
    var lc := new LicenseChecker.NewFromLists(["MIT", "Apache-2.0"], ["GPL-3.0"]);
    ListsGiveTestContext(lc.context);
    var currentLicenses := map["some-dependency-1" := "MIT", "some-dependency-2" := "MIT",
                               "some-dependency-3" := "Apache-2.0", "some-dependency-4" := "GPL-2.0",
                               "some-dependency-5" := "GPL-3.0"];
    AllTestDependencyBuckets(currentLicenses, lc.context);
    r := lc.ValidateCurrentLicenses(currentLicenses);
    match r
    case Success(report) =>
      ValidationOfTestDependencies(report.allowed, report.disallowed, report.unknown, currentLicenses, lc.context);
    case Failure(_) =>
    case Panic =>
  }
}
