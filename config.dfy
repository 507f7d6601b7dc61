/** The configuration: defaults for unset fields, the check that every required
    field is set, and the conversion of license-file records into decisions. */
module Config {
  import opened Wrappers
  import opened StrConv

  const DefaultCacheDir := ".license-checker"
  const LicensesScriptName := "print-current-licenses.sh"
  const LicensesFileName := "licenses.csv"
  const DefaultCuratedListsSource :=
    "https://raw.githubusercontent.com/eriklarko/license-checker-go/refs/heads/main/lists/list-metadata.yaml"
  const DefaultPath := ".license-checker.yaml"

  /** `filepath.Join` of a directory and a file name, without the path
      cleaning: the name comes last and the result is never empty. */
  function Join(dir: string, name: string): (r: string)
    requires name != []
    ensures r != [] && |r| >= |name| && r[|r| - |name|..] == name
  {
    if dir == [] then name else dir + "/" + name
  }

  // ---------------------------------------------------------------------------
  // Validation (config.go: Validate)
  // ---------------------------------------------------------------------------

  /** One required field left empty, in the order `Validate` checks them. */
  datatype Violation = CacheDirEmpty | LicensesScriptEmpty | LicensesFileEmpty

  function Rank(v: Violation): nat
  {
    match v
    case CacheDirEmpty => 0
    case LicensesScriptEmpty => 1
    case LicensesFileEmpty => 2
  }

  /** The text `Validate` lists for a violation. */
  function Message(v: Violation): string
  {
    match v
    case CacheDirEmpty => "cache-dir cannot be empty"
    case LicensesScriptEmpty => "licenses-script cannot be empty"
    case LicensesFileEmpty => "licenses-file cannot be empty"
  }

  /** Each violation has its own text, so the listed messages say exactly which
      fields are empty. */
  lemma MessagesDistinct(v: Violation, w: Violation)
    ensures Message(v) == Message(w) <==> v == w
  {
    if v != w {
      var m, n := Message(v), Message(w);
      if v == CacheDirEmpty || w == CacheDirEmpty {
        assert m[0] != n[0];
      } else {
        assert m[9] != n[9];
      }
    }
  }

  /** The violations of three required values, in check order. */
  function Violations(cacheDir: string, licensesScript: string, licensesFile: string): (vs: seq<Violation>)
    ensures CacheDirEmpty in vs <==> cacheDir == []
    ensures LicensesScriptEmpty in vs <==> licensesScript == []
    ensures LicensesFileEmpty in vs <==> licensesFile == []
    ensures forall i, j | 0 <= i < j < |vs| :: Rank(vs[i]) < Rank(vs[j])
  {
    (if cacheDir == [] then [CacheDirEmpty] else [])
    + (if licensesScript == [] then [LicensesScriptEmpty] else [])
    + (if licensesFile == [] then [LicensesFileEmpty] else [])
  }

  /** The error `Validate` returns: every violated field. */
  datatype ValidationError = ValidationErrors(violations: seq<Violation>)

  // ---------------------------------------------------------------------------
  // The configuration record (config.go: Config, applyDefaults, DefaultConfig)
  // ---------------------------------------------------------------------------

  class Config {
    // required values
    var licensesScript: string
    var licensesFile: string
    var cacheDir: string
    // optional values
    var curatedListsSource: string
    var selectedCuratedList: string
    var curatedScriptsSource: string
    // the file this configuration was read from
    var path: string

    /** `&Config{}`: every field empty. */
    constructor Empty()
      ensures licensesScript == [] && licensesFile == [] && cacheDir == []
      ensures curatedListsSource == [] && selectedCuratedList == [] && curatedScriptsSource == [] && path == []
    {
      licensesScript, licensesFile, cacheDir := [], [], [];
      curatedListsSource, selectedCuratedList, curatedScriptsSource := [], [], [];
      path := [];
    }

    /** `applyDefaults`: fills each empty defaulted field, the script and the
        license file inside the (already defaulted) cache directory; a field
        already set is kept, so a second call changes nothing. */
    method ApplyDefaults()
      modifies this
      ensures cacheDir == if old(cacheDir) == [] then DefaultCacheDir else old(cacheDir)
      ensures licensesScript == if old(licensesScript) == [] then Join(cacheDir, LicensesScriptName) else old(licensesScript)
      ensures licensesFile == if old(licensesFile) == [] then Join(cacheDir, LicensesFileName) else old(licensesFile)
      ensures curatedListsSource == if old(curatedListsSource) == [] then DefaultCuratedListsSource else old(curatedListsSource)
      ensures path == if old(path) == [] then DefaultPath else old(path)
      ensures selectedCuratedList == old(selectedCuratedList) && curatedScriptsSource == old(curatedScriptsSource)
      ensures Validate() == None
      ensures (old(cacheDir) != [] && old(licensesScript) != [] && old(licensesFile) != []
               && old(curatedListsSource) != [] && old(path) != []) ==> unchanged(this)
    {
      if cacheDir == [] {
        cacheDir := DefaultCacheDir;
      }
      if licensesScript == [] {
        licensesScript := Join(cacheDir, LicensesScriptName);
      }
      if licensesFile == [] {
        licensesFile := Join(cacheDir, LicensesFileName);
      }
      if curatedListsSource == [] {
        curatedListsSource := DefaultCuratedListsSource;
      }
      if path == [] {
        path := DefaultPath;
      }
      ValidWhenSet(cacheDir, licensesScript, licensesFile);
    }

    /** `Validate`: no error exactly when every required field is set;
        otherwise every empty one, in check order. */
    function Validate(): (r: Option<ValidationError>)
      reads this
      ensures r == None <==> cacheDir != [] && licensesScript != [] && licensesFile != []
      ensures r.Some? ==> r.value.violations == Violations(cacheDir, licensesScript, licensesFile)
    {
      var errs := Violations(cacheDir, licensesScript, licensesFile);
      if |errs| > 0 then Some(ValidationErrors(errs)) else None
    }
  }

  /** With every required value set there is no violation, and with one unset
      there is. */
  lemma ValidWhenSet(cacheDir: string, licensesScript: string, licensesFile: string)
    ensures Violations(cacheDir, licensesScript, licensesFile) == [] <==>
              cacheDir != [] && licensesScript != [] && licensesFile != []
  {
    var vs := Violations(cacheDir, licensesScript, licensesFile);
    if cacheDir == [] { assert CacheDirEmpty in vs; }
    if licensesScript == [] { assert LicensesScriptEmpty in vs; }
    if licensesFile == [] { assert LicensesFileEmpty in vs; }
  }

  /** `DefaultConfig`: the defaults of an empty configuration, which pass
      validation. */
  method DefaultConfig() returns (conf: Config)
    ensures fresh(conf)
    ensures conf.cacheDir == DefaultCacheDir
    ensures conf.licensesScript == Join(DefaultCacheDir, LicensesScriptName)
    ensures conf.licensesFile == Join(DefaultCacheDir, LicensesFileName)
    ensures conf.curatedListsSource == DefaultCuratedListsSource && conf.path == DefaultPath
    ensures conf.selectedCuratedList == [] && conf.curatedScriptsSource == []
    ensures conf.Validate() == None
  {
    conf := new Config.Empty();
    conf.ApplyDefaults();
  }

  // ---------------------------------------------------------------------------
  // License-file records (config.go: the record loop of ReadLicenseMap)
  // ---------------------------------------------------------------------------

  datatype RecordError =
    | InvalidRecord(record: seq<string>, fieldCount: nat)   // "invalid record ...: expected 2 fields, got N"
    | InvalidBool(field: string)                            // "failed to parse boolean ..."

  /** The first `n` records are ones the loop accepts: a license and a boolean
      spelling. */
  predicate WellFormedUpTo(records: seq<seq<string>>, n: nat)
    requires n <= |records|
  {
    forall i | 0 <= i < n :: |records[i]| == 2 && ParseBool(records[i][1]).Some?
  }

  /** The error the loop reports for a record it rejects. */
  function RecordErrorOf(record: seq<string>): (e: RecordError)
    requires |record| != 2 || ParseBool(record[1]).None?
    ensures e.InvalidRecord? <==> |record| != 2
    ensures e.InvalidRecord? ==> e == InvalidRecord(record, |record|)
    ensures e.InvalidBool? ==> e == InvalidBool(record[1]) && record[1] !in TrueSpellings + FalseSpellings
  {
    if |record| != 2 then InvalidRecord(record, |record|) else InvalidBool(record[1])
  }

  /** The decisions of the first `n` records, each one written over the earlier. */
  function RecordsMap(records: seq<seq<string>>, n: nat): (m: map<string, bool>)
    requires n <= |records| && WellFormedUpTo(records, n)
    ensures forall i | 0 <= i < n :: records[i][0] in m
  {
    if n == 0 then map[]
    else RecordsMap(records, n - 1)[records[n - 1][0] := ParseBool(records[n - 1][1]).value]
  }

  /** The loop of `ReadLicenseMap` over already parsed records: the first
      malformed record aborts with its error, otherwise every record's license
      maps to its boolean. */
  method LicenseMapFromRecords(records: seq<seq<string>>) returns (r: Result<map<string, bool>, RecordError>)
    ensures r.Ok? <==> WellFormedUpTo(records, |records|)
    ensures r.Ok? ==> r.value == RecordsMap(records, |records|)
    ensures r.Err? ==> exists k | 0 <= k < |records| ::
              && WellFormedUpTo(records, k)
              && (|records[k]| != 2 || ParseBool(records[k][1]).None?)
              && r.error == RecordErrorOf(records[k])
  {
    var licenseMap: map<string, bool> := map[];
    for k := 0 to |records|
      invariant WellFormedUpTo(records, k)
      invariant licenseMap == RecordsMap(records, k)
    {
      var record := records[k];
      if |record| != 2 {
        return Err(InvalidRecord(record, |record|));
      }
      var license := record[0];
      var allowed := ParseBool(record[1]);
      if allowed.None? {
        return Err(InvalidBool(record[1]));
      }
      licenseMap := licenseMap[license := allowed.value];
    }
    return Ok(licenseMap);
  }

  /** The record that names a license last decides it. */
  lemma {:induction false} RecordsMapLastWins(records: seq<seq<string>>, n: nat, k: nat)
    requires n <= |records| && WellFormedUpTo(records, n)
    requires k < n
    requires forall i | k < i < n :: records[i][0] != records[k][0]
    ensures records[k][0] in RecordsMap(records, n)
    ensures RecordsMap(records, n)[records[k][0]] == ParseBool(records[k][1]).value
  {
    if k < n - 1 {
      assert WellFormedUpTo(records, n - 1);
      RecordsMapLastWins(records, n - 1, k);
      assert records[n - 1][0] != records[k][0];
    }
  }

  /** Exactly the licenses some record names are in the map. */
  lemma {:induction false} RecordsMapKeys(records: seq<seq<string>>, n: nat)
    requires n <= |records| && WellFormedUpTo(records, n)
    ensures forall license :: license in RecordsMap(records, n) <==> exists i | 0 <= i < n :: records[i][0] == license
  {
    if n > 0 {
      assert WellFormedUpTo(records, n - 1);
      RecordsMapKeys(records, n - 1);
      forall license
        ensures license in RecordsMap(records, n) <==> exists i | 0 <= i < n :: records[i][0] == license
      {
        if license == records[n - 1][0] {
          assert records[n - 1][0] == license;
        } else if exists i | 0 <= i < n :: records[i][0] == license {
          var i :| 0 <= i < n && records[i][0] == license;
          assert i < n - 1;
        }
      }
    }
  }
}
