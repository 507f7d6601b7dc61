/** The license-file cases of the configuration tests, stated over the record loop. */
module ConfigExamples {
  import opened Wrappers
  import opened StrConv
  import opened Config

  /** Two good records give both decisions. */
  lemma ValidRecords(records: seq<seq<string>>)
    requires records == [["MIT", "true"], ["GPL-3.0", "false"]]
    ensures WellFormedUpTo(records, |records|)
    ensures RecordsMap(records, |records|) == map["MIT" := true, "GPL-3.0" := false]
  {
    assert ParseBool(records[0][1]) == Some(true);
    assert ParseBool(records[1][1]) == Some(false);
    assert RecordsMap(records, 1) == map["MIT" := true];
    assert RecordsMap(records, 2) == RecordsMap(records, 1)["GPL-3.0" := false];
  }

  /** A field that is no boolean spelling is rejected, and it is the one reported. */
  lemma InvalidBoolRecord(records: seq<seq<string>>)
    requires records == [["MIT", "true"], ["GPL-3.0", "notabool"]]
    ensures WellFormedUpTo(records, 1) && !WellFormedUpTo(records, 2)
    ensures RecordErrorOf(records[1]) == InvalidBool("notabool")
  {
    assert ParseBool(records[0][1]) == Some(true);
    assert ParseBool(records[1][1]) == None;
  }

  /** A later record overrides an earlier one for the same license. */
  lemma DuplicateRecords(records: seq<seq<string>>, license: string)
    requires records == [[license, "true"], [license, "false"]]
    ensures WellFormedUpTo(records, |records|)
    ensures RecordsMap(records, |records|) == map[license := false]
  {
    assert ParseBool(records[0][1]) == Some(true);
    assert ParseBool(records[1][1]) == Some(false);
    assert RecordsMap(records, 1) == map[license := true];
    assert RecordsMap(records, 2) == RecordsMap(records, 1)[license := false];
  }
}
