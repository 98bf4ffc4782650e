/** TestProgramJSONBuilder::buildJSONFiles: the legacy writer that splits a
    test program into one file per test case. Its three collaborators are
    seen through the calls made to them: the UUID generator (`generate(k)` is
    the k-th identifier it hands out), the suite serializer (`serialize`) and
    the file service (a log of saves). */
module LegacyJsonBuilder {

  /** The parts of model::TestCase, TestSuite and TestProgram this code
      touches; `properties` stands for every other field, which is copied
      along unchanged. */
  datatype TestCase = TestCase(name: string, properties: map<string, string>)
  datatype TestSuite = TestSuite(uuid: string, properties: map<string, string>, testCases: seq<TestCase>)
  datatype TestProgram = TestProgram(name: string, outputFolder: string, testSuites: seq<TestSuite>)

  /** One call to a collaborator, in the order the builder makes them. */
  datatype ServiceCall =
    | GenerateUuid(uuid: string)
    | Serialize(suite: TestSuite)
    | SaveFile(path: string, content: string)

  /** The copy of the suite that holds only test case c and carries uuid. */
  function SingleCaseSuite(suite: TestSuite, c: TestCase, uuid: string): (single: TestSuite)
  {
    suite.(testCases := [c], uuid := uuid)
  }

  function CaseFilePath(folder: string, uuid: string): (path: string)
  {
    folder + "/" + uuid + "-" + "results" + ".json"
  }

  /** The three calls made for one test case once its identifier is drawn. */
  function CaseCalls(folder: string, suite: TestSuite, c: TestCase, uuid: string,
                     serialize: TestSuite -> string): (calls: seq<ServiceCall>)
  {
    var single := SingleCaseSuite(suite, c, uuid);
    [GenerateUuid(uuid), Serialize(single), SaveFile(CaseFilePath(folder, uuid), serialize(single))]
  }

  /** Every (suite, case) pair, suites in index order and each suite's cases in order. */
  function Flatten(suites: seq<TestSuite>): (pairs: seq<(TestSuite, TestCase)>)
  {
    if suites == [] then []
    else Flatten(suites[..|suites| - 1]) + CasesOf(suites[|suites| - 1])
  }

  function CasesOf(suite: TestSuite): (pairs: seq<(TestSuite, TestCase)>)
    ensures |pairs| == |suite.testCases|
    ensures forall j :: 0 <= j < |pairs| ==> pairs[j] == (suite, suite.testCases[j])
  {
    seq(|suite.testCases|, j requires 0 <= j < |suite.testCases| => (suite, suite.testCases[j]))
  }

  /** The number of test cases over all suites. */
  function TotalCases(suites: seq<TestSuite>): (count: nat)
  {
    if suites == [] then 0
    else TotalCases(suites[..|suites| - 1]) + |suites[|suites| - 1].testCases|
  }

  /** The calls made for the given pairs; the k-th pair gets the k-th identifier. */
  function ExpectedCalls(folder: string, pairs: seq<(TestSuite, TestCase)>,
                         generate: nat -> string, serialize: TestSuite -> string): (calls: seq<ServiceCall>)
  {
    if pairs == [] then []
    else
      var k := |pairs| - 1;
      ExpectedCalls(folder, pairs[..k], generate, serialize)
        + CaseCalls(folder, pairs[k].0, pairs[k].1, generate(k), serialize)
  }

  /** buildJSONFiles, returning the calls it makes, in order. The program is
      a value: the builder cannot change it. */
  method BuildJsonFiles(program: TestProgram, generate: nat -> string, serialize: TestSuite -> string)
    returns (calls: seq<ServiceCall>)
    ensures calls == ExpectedCalls(program.outputFolder, Flatten(program.testSuites), generate, serialize)
  {
    var suites := program.testSuites;
    var folder := program.outputFolder;
    calls := [];
    var requested := 0;
    ghost var pairs: seq<(TestSuite, TestCase)> := [];
    var i := 0;
    while i < |suites|
      invariant 0 <= i <= |suites|
      invariant pairs == Flatten(suites[..i])
      invariant requested == |pairs|
      invariant calls == ExpectedCalls(folder, pairs, generate, serialize)
    {
      var testSuite := suites[i];
      var testCases := testSuite.testCases;
      ghost var done := pairs;
      var j := 0;
      while j < |testCases|
        invariant 0 <= j <= |testCases|
        invariant pairs == done + CasesOf(testSuite)[..j]
        invariant requested == |pairs|
        invariant calls == ExpectedCalls(folder, pairs, generate, serialize)
      {
        var single := testSuite;
        single := single.(testCases := []);
        single := single.(testCases := single.testCases + [testCases[j]]);
        var uuid := generate(requested);
        requested := requested + 1;
        single := single.(uuid := uuid);
        var path := folder + "/" + uuid + "-" + "results" + ".json";
        var content := serialize(single);
        assert single == SingleCaseSuite(testSuite, testCases[j], uuid);
        assert path == CaseFilePath(folder, uuid);
        ghost var before := calls;
        calls := calls + [GenerateUuid(uuid)];
        calls := calls + [Serialize(single)];
        calls := calls + [SaveFile(path, content)];
        assert calls == before + CaseCalls(folder, testSuite, testCases[j], uuid, serialize);
        ExpectedCallsSnoc(folder, pairs, (testSuite, testCases[j]), generate, serialize);
        CasesPrefixStep(testSuite, j);
        pairs := pairs + [(testSuite, testCases[j])];
        j := j + 1;
      }
      assert CasesOf(testSuite)[..j] == CasesOf(testSuite);
      FlattenStep(suites, i);
      i := i + 1;
    }
    assert suites[..i] == suites;
  }

  lemma CasesPrefixStep(suite: TestSuite, j: nat)
    requires j < |suite.testCases|
    ensures CasesOf(suite)[..j + 1] == CasesOf(suite)[..j] + [(suite, suite.testCases[j])]
  {
  }

  lemma FlattenStep(suites: seq<TestSuite>, i: nat)
    requires i < |suites|
    ensures Flatten(suites[..i + 1]) == Flatten(suites[..i]) + CasesOf(suites[i])
  {
    assert suites[..i + 1][..i] == suites[..i];
  }

  lemma ExpectedCallsSnoc(folder: string, pairs: seq<(TestSuite, TestCase)>, last: (TestSuite, TestCase),
                          generate: nat -> string, serialize: TestSuite -> string)
    ensures ExpectedCalls(folder, pairs + [last], generate, serialize)
      == ExpectedCalls(folder, pairs, generate, serialize)
         + CaseCalls(folder, last.0, last.1, generate(|pairs|), serialize)
  {
    assert (pairs + [last])[..|pairs|] == pairs;
  }

  // ---------------------------------------------------------------------------
  // Properties of the call sequence

  lemma {:induction false} FlattenLength(suites: seq<TestSuite>)
    ensures |Flatten(suites)| == TotalCases(suites)
  {
    if suites != [] {
      FlattenLength(suites[..|suites| - 1]);
    }
  }

  /** Suite-index order, then case order: case j of suite i is pair number
      TotalCases(suites[..i]) + j. */
  lemma {:induction false} FlattenAt(suites: seq<TestSuite>, i: nat, j: nat)
    requires i < |suites| && j < |suites[i].testCases|
    ensures TotalCases(suites[..i]) + j < |Flatten(suites)|
    ensures Flatten(suites)[TotalCases(suites[..i]) + j] == (suites[i], suites[i].testCases[j])
  {
    var n := |suites| - 1;
    var init := suites[..n];
    FlattenLength(init);
    FlattenLength(suites);
    if i == n {
      assert suites[..i] == init;
    } else {
      assert init[..i] == suites[..i] && init[i] == suites[i];
      FlattenAt(init, i, j);
    }
  }

  lemma {:induction false} ExpectedCallsLength(folder: string, pairs: seq<(TestSuite, TestCase)>,
                                              generate: nat -> string, serialize: TestSuite -> string)
    ensures |ExpectedCalls(folder, pairs, generate, serialize)| == 3 * |pairs|
  {
    if pairs != [] {
      ExpectedCallsLength(folder, pairs[..|pairs| - 1], generate, serialize);
    }
  }

  /** For the k-th case: one identifier is requested, then the single-case
      suite carrying it is serialized, then the file named after it is saved. */
  lemma {:induction false} ExpectedCallsAt(folder: string, pairs: seq<(TestSuite, TestCase)>,
                                          generate: nat -> string, serialize: TestSuite -> string, k: nat)
    requires k < |pairs|
    ensures var calls := ExpectedCalls(folder, pairs, generate, serialize);
      var single := SingleCaseSuite(pairs[k].0, pairs[k].1, generate(k));
      && |calls| == 3 * |pairs|
      && calls[3 * k] == GenerateUuid(generate(k))
      && calls[3 * k + 1] == Serialize(single)
      && calls[3 * k + 2] == SaveFile(CaseFilePath(folder, generate(k)), serialize(single))
  {
    var n := |pairs| - 1;
    ExpectedCallsLength(folder, pairs, generate, serialize);
    ExpectedCallsLength(folder, pairs[..n], generate, serialize);
    if k < n {
      ExpectedCallsAt(folder, pairs[..n], generate, serialize, k);
    }
  }

  /** What the serializer is handed holds exactly the current case, the fresh
      identifier, and the original suite's other fields. */
  lemma SerializedSuiteShape(suite: TestSuite, c: TestCase, uuid: string)
    ensures SingleCaseSuite(suite, c, uuid).testCases == [c]
    ensures SingleCaseSuite(suite, c, uuid).uuid == uuid
    ensures SingleCaseSuite(suite, c, uuid).properties == suite.properties
  {
  }

  function SaveCount(calls: seq<ServiceCall>): (count: nat)
  {
    if calls == [] then 0
    else SaveCount(calls[..|calls| - 1]) + (if calls[|calls| - 1].SaveFile? then 1 else 0)
  }

  function UuidRequestCount(calls: seq<ServiceCall>): (count: nat)
  {
    if calls == [] then 0
    else UuidRequestCount(calls[..|calls| - 1]) + (if calls[|calls| - 1].GenerateUuid? then 1 else 0)
  }

  /** The saves among the calls, in the order they were made. */
  function Saves(calls: seq<ServiceCall>): (saves: seq<ServiceCall>)
    ensures |saves| <= |calls|
    ensures forall i :: 0 <= i < |saves| ==> saves[i].SaveFile?
  {
    if calls == [] then []
    else Saves(calls[..|calls| - 1]) + (if calls[|calls| - 1].SaveFile? then [calls[|calls| - 1]] else [])
  }

  lemma {:induction false} CountsAppend(a: seq<ServiceCall>, b: seq<ServiceCall>)
    ensures SaveCount(a + b) == SaveCount(a) + SaveCount(b)
    ensures UuidRequestCount(a + b) == UuidRequestCount(a) + UuidRequestCount(b)
    ensures Saves(a + b) == Saves(a) + Saves(b)
  {
    if b == [] {
      assert a + b == a;
    } else {
      var n := |b| - 1;
      assert (a + b)[..|a + b| - 1] == a + b[..n];
      assert (a + b)[|a + b| - 1] == b[n];
      CountsAppend(a, b[..n]);
    }
  }

  lemma CaseCallsCounts(folder: string, suite: TestSuite, c: TestCase, uuid: string, serialize: TestSuite -> string)
    ensures SaveCount(CaseCalls(folder, suite, c, uuid, serialize)) == 1
    ensures UuidRequestCount(CaseCalls(folder, suite, c, uuid, serialize)) == 1
    ensures Saves(CaseCalls(folder, suite, c, uuid, serialize)) == [CaseCalls(folder, suite, c, uuid, serialize)[2]]
  {
    var three := CaseCalls(folder, suite, c, uuid, serialize);
    var two, one := three[..2], three[..1];
    assert three[..|three| - 1] == two && two[..|two| - 1] == one && one[..|one| - 1] == [];
    assert SaveCount(one) == 0 && UuidRequestCount(one) == 1 && Saves(one) == [];
    assert SaveCount(two) == 0 && UuidRequestCount(two) == 1 && Saves(two) == [];
  }

  /** One save and one identifier request per test case, over all suites. */
  lemma {:induction false} SavesPerCase(folder: string, pairs: seq<(TestSuite, TestCase)>,
                                       generate: nat -> string, serialize: TestSuite -> string)
    ensures SaveCount(ExpectedCalls(folder, pairs, generate, serialize)) == |pairs|
    ensures UuidRequestCount(ExpectedCalls(folder, pairs, generate, serialize)) == |pairs|
  {
    if pairs != [] {
      var k := |pairs| - 1;
      SavesPerCase(folder, pairs[..k], generate, serialize);
      var three := CaseCalls(folder, pairs[k].0, pairs[k].1, generate(k), serialize);
      CountsAppend(ExpectedCalls(folder, pairs[..k], generate, serialize), three);
      CaseCallsCounts(folder, pairs[k].0, pairs[k].1, generate(k), serialize);
    }
  }

  /** The saves, in order: the k-th goes to the file named after the k-th
      identifier and holds the k-th pair's single-case suite carrying it. */
  lemma {:induction false} SavesInOrder(folder: string, pairs: seq<(TestSuite, TestCase)>,
                                       generate: nat -> string, serialize: TestSuite -> string)
    ensures var saves := Saves(ExpectedCalls(folder, pairs, generate, serialize));
      && |saves| == |pairs|
      && forall k :: 0 <= k < |pairs| ==>
           saves[k] == SaveFile(CaseFilePath(folder, generate(k)),
                                serialize(SingleCaseSuite(pairs[k].0, pairs[k].1, generate(k))))
  {
    if pairs != [] {
      var k := |pairs| - 1;
      SavesInOrder(folder, pairs[..k], generate, serialize);
      var three := CaseCalls(folder, pairs[k].0, pairs[k].1, generate(k), serialize);
      CountsAppend(ExpectedCalls(folder, pairs[..k], generate, serialize), three);
      CaseCallsCounts(folder, pairs[k].0, pairs[k].1, generate(k), serialize);
    }
  }

  /** The number of saves equals the number of test cases over all suites;
      a program without test cases causes no save and no identifier request. */
  lemma BuildSavesOnePerCase(program: TestProgram, generate: nat -> string, serialize: TestSuite -> string)
    ensures var calls := ExpectedCalls(program.outputFolder, Flatten(program.testSuites), generate, serialize);
      && SaveCount(calls) == TotalCases(program.testSuites)
      && UuidRequestCount(calls) == TotalCases(program.testSuites)
      && (TotalCases(program.testSuites) == 0 ==> calls == [])
  {
    FlattenLength(program.testSuites);
    SavesPerCase(program.outputFolder, Flatten(program.testSuites), generate, serialize);
    ExpectedCallsLength(program.outputFolder, Flatten(program.testSuites), generate, serialize);
  }

  // ---------------------------------------------------------------------------
  // The unit test's program: three suites with 2, 1 and 0 cases

  function ExampleProgram(): (program: TestProgram)
  {
    TestProgram("MyTestProgram", "TestProgramJSONBuilderTest/Reports", [
      TestSuite("UUID1", map[], [TestCase("TestCase_0_0", map[]), TestCase("TestCase_0_1", map[])]),
      TestSuite("UUID2", map[], [TestCase("TestCase_1_0", map[])]),
      TestSuite("UUID3", map[], [])])
  }

  function ExampleUuid(k: nat): (uuid: string)
  {
    if k == 0 then "CaseUUID-1" else if k == 1 then "CaseUUID-2" else "CaseUUID-3"
  }

  function ExampleSerialize(suite: TestSuite): (content: string)
  {
    "Serialized" + suite.uuid
  }

  lemma ExampleCases()
    ensures var suites := ExampleProgram().testSuites;
      Flatten(suites) == [(suites[0], suites[0].testCases[0]), (suites[0], suites[0].testCases[1]),
                          (suites[1], suites[1].testCases[0])]
  {
    var suites := ExampleProgram().testSuites;
    assert suites[..3] == suites && suites[..3][..2] == suites[..2];
    assert suites[..2][..1] == suites[..1] && suites[..1][..0] == [];
    assert Flatten(suites[..1]) == CasesOf(suites[0]);
    assert Flatten(suites[..2]) == CasesOf(suites[0]) + CasesOf(suites[1]);
    assert Flatten(suites) == CasesOf(suites[0]) + CasesOf(suites[1]) + CasesOf(suites[2]);
  }

  /** The file of a case is `<folder>/<uuid>-results.json`. */
  lemma CaseFileName(folder: string, uuid: string)
    ensures CaseFilePath(folder, uuid) == folder + "/" + uuid + "-results.json"
  {
    assert "-" + "results" + ".json" == "-results.json";
  }

  /** The k-th case of the unit test's run: its identifier is requested at
      call 3k, and the k-th save goes to the file named after it and holds
      "Serialized" followed by it. */
  lemma ExampleCaseAt(k: nat)
    requires k < 3
    ensures var p := ExampleProgram();
      var calls := ExpectedCalls(p.outputFolder, Flatten(p.testSuites), ExampleUuid, ExampleSerialize);
      && |calls| == 9
      && calls[3 * k] == GenerateUuid(ExampleUuid(k))
      && |Saves(calls)| == 3
      && Saves(calls)[k] == SaveFile(p.outputFolder + "/" + ExampleUuid(k) + "-results.json",
                                     "Serialized" + ExampleUuid(k))
  {
    var p := ExampleProgram();
    ExampleCases();
    ExpectedCallsAt(p.outputFolder, Flatten(p.testSuites), ExampleUuid, ExampleSerialize, k);
    SavesInOrder(p.outputFolder, Flatten(p.testSuites), ExampleUuid, ExampleSerialize);
    CaseFileName(p.outputFolder, ExampleUuid(k));
  }

  /** The unit test's run: nine calls; the identifiers CaseUUID-1, -2 and -3
      are requested in that order, and the saves are exactly
      `<folder>/CaseUUID-<n>-results.json` holding "SerializedCaseUUID-<n>",
      in order. */
  method ExampleRun() returns (calls: seq<ServiceCall>)
    ensures |calls| == 9
    ensures calls[0] == GenerateUuid("CaseUUID-1")
    ensures calls[3] == GenerateUuid("CaseUUID-2")
    ensures calls[6] == GenerateUuid("CaseUUID-3")
    ensures var folder := "TestProgramJSONBuilderTest/Reports";
      Saves(calls) == [SaveFile(folder + "/" + "CaseUUID-1" + "-results.json", "Serialized" + "CaseUUID-1"),
                       SaveFile(folder + "/" + "CaseUUID-2" + "-results.json", "Serialized" + "CaseUUID-2"),
                       SaveFile(folder + "/" + "CaseUUID-3" + "-results.json", "Serialized" + "CaseUUID-3")]
  {
    calls := BuildJsonFiles(ExampleProgram(), ExampleUuid, ExampleSerialize);
    ExampleCaseAt(0);
    ExampleCaseAt(1);
    ExampleCaseAt(2);
  }
}
