/** Allure2Listener.cpp: the gtest listener that stamps each test with an
    identifier and a start time (OnTestStart) and, when the test ends, builds
    one Allure result document and writes it to `<folder>/<uuid>-result.json`
    (OnTestEnd). The document is modelled as a datatype whose fields are the
    JSON members in the order they are added. */
module Allure2Listener {
  import opened AllureModel
  import opened TextFormat
  import AllureApi
  import UuidV4

  // ---------------------------------------------------------------------------
  // What gtest hands the listener

  /** `::testing::TestInfo`: the suite name and the test's own name. */
  datatype TestInfo = TestInfo(suiteName: string, name: string)

  /** `::testing::TestResult`, as far as the listener asks. */
  datatype TestResult = TestResult(skipped: bool, failed: bool)

  // ---------------------------------------------------------------------------
  // The result document

  datatype Label = Label(name: string, value: string)
  datatype Link = Link(linkType: string, name: string, url: string)
  datatype StepObject = StepObject(name: string, status: string, stage: string, start: int, stop: int)

  datatype ResultDocument = ResultDocument(
    uuid: string,
    historyId: string,
    testCaseId: string,
    testCaseName: string,
    fullName: string,
    labels: seq<Label>,
    links: seq<Link>,
    name: string,
    status: string,
    stage: string,
    description: string,
    steps: seq<StepObject>,
    attachments: seq<Attachment>,
    parameters: seq<Parameter>,
    start: int,
    stop: int)

  // ---------------------------------------------------------------------------
  // Pure pieces of OnTestEnd

  /** statusFromGTest: skipped wins over failed, failed over passed. */
  function StatusFromGTest(r: TestResult): (status: string)
    ensures status == "skipped" <==> r.skipped
    ensures status == "failed" <==> !r.skipped && r.failed
    ensures status == "passed" <==> !r.skipped && !r.failed
  {
    if r.skipped then "skipped" else if r.failed then "failed" else "passed"
  }

  /** The stop time written: the clock reading if it is after the start,
      and otherwise one millisecond after the start. */
  function ClampStop(startMs: int, clockMs: int): (stopMs: int)
    ensures stopMs > startMs
    ensures stopMs >= clockMs
    ensures stopMs == clockMs || stopMs == startMs + 1
  {
    if clockMs <= startMs then startMs + 1 else clockMs
  }

  /** hostName: what gethostname reported, or "unknown-host" if it failed. */
  function HostName(lookup: Option<string>): (host: string)
  {
    if lookup.Some? then lookup.value else "unknown-host"
  }

  /** threadLabel: `<pid>@<host>.main(1)`, the pid in decimal. */
  function ThreadLabel(pid: nat, lookup: Option<string>): (text: string)
    ensures exists k :: 0 < k < |text| && IsNumeral(text[..k], 10) && FromBase(text[..k], 10) == pid
                        && text[k..] == "@" + HostName(lookup) + ".main(1)"
  {
    var digits := ToBase(pid, 10);
    var text := digits + "@" + HostName(lookup) + ".main(1)";
    assert text[..|digits|] == digits && text[|digits|..] == "@" + HostName(lookup) + ".main(1)";
    ToBaseRoundTrip(pid, 10);
    text
  }

  function FullName(suite: string, testName: string): (fullName: string)
  {
    suite + "." + testName
  }

  function TestCaseId(suite: string, testName: string): (id: string)
  {
    "[gtest]/[suite:" + suite + "]/[test:" + testName + "]"
  }

  /** The displayed case name: the context's current case name, or the gtest
      name when that is empty. */
  function DisplayName(caseName: string, testName: string): (name: string)
    ensures caseName != "" ==> name == caseName
    ensures caseName == "" ==> name == testName
    ensures name != "" || testName == ""
  {
    if caseName == "" then testName else caseName
  }

  /** The nine labels every result carries, in order. */
  function FixedLabels(host: string, thread: string, suite: string, testName: string): (labels: seq<Label>)
  {
    [ Label("host", host), Label("thread", thread), Label("framework", "gtest"),
      Label("language", "cpp"), Label("package", suite), Label("testClass", suite),
      Label("testMethod", testName), Label("suite", suite),
      Label("junit.platform.uniqueid", TestCaseId(suite, testName)) ]
  }

  /** The links array: empty without a TMS id; otherwise one TMS link whose
      url is the formatted link, or the bare id when formatting gives "". */
  function TmsLinks(tmsId: string, pattern: string): (links: seq<Link>)
  {
    if tmsId == "" then []
    else
      var url := AllureApi.FormatTmsLink(pattern, tmsId);
      [Link("tms", "TMS", if url == "" then tmsId else url)]
  }

  /** A recorded step as the report shows it: its attachments and parameters
      are not emitted. */
  function StepObjectOf(s: Step): (obj: StepObject)
  {
    StepObject(s.name, s.status, "finished", s.startMs, s.stopMs)
  }

  /** `fs::path(dir) / file` on POSIX: an absolute file replaces dir;
      otherwise a separator is inserted only when dir has a last component,
      that is, when it is non-empty and does not already end in '/'. */
  function JoinPath(dir: string, file: string): (path: string)
    ensures file != "" && file[0] == '/' ==> path == file
    ensures |path| >= |file| && path[|path| - |file|..] == file
    ensures !(file != "" && file[0] == '/') ==>
      && |path| == |dir| + |file| + (if dir != "" && dir[|dir| - 1] != '/' then 1 else 0)
      && path[..|dir|] == dir
      && (dir != "" && dir[|dir| - 1] != '/' ==> path[|dir|] == '/')
  {
    if file != "" && file[0] == '/' then file
    else if dir == "" || dir[|dir| - 1] == '/' then dir + file
    else dir + "/" + file
  }

  /** The folder the listener writes to: the configured one, or
      "allure-results" if it was set to "". */
  function OutputDir(configured: string): (dir: string)
    ensures dir != ""
    ensures configured != "" ==> dir == configured
    ensures configured == "" ==> dir == AllureApi.DefaultOutputFolder
  {
    if configured == "" then AllureApi.DefaultOutputFolder else configured
  }

  function ResultPath(dir: string, uuid: string): (path: string)
  {
    JoinPath(dir, uuid + "-result.json")
  }

  // ---------------------------------------------------------------------------
  // The document one finished test yields

  /** Everything OnTestEnd reads: gtest's view of the test, the worker's
      context, the listener's own uuid and start time, the clamped stop time,
      the host lookups, the configured TMS id and pattern, and the tags,
      description, attachments and parameters AllureAPI hands over. */
  datatype ReportInputs = ReportInputs(
    info: TestInfo,
    result: TestResult,
    caseName: string,
    uuid: string,
    startMs: int,
    stopMs: int,
    host: string,
    thread: string,
    tmsId: string,
    tmsPattern: string,
    tags: seq<string>,
    description: string,
    steps: seq<Step>,
    attachments: seq<Attachment>,
    parameters: seq<Parameter>)

  /** d is the result document OnTestEnd builds from inp; `hash` stands for
      stableHashHex. */
  ghost predicate IsResultDocument(d: ResultDocument, inp: ReportInputs, hash: string -> string)
  {
    var suite := inp.info.suiteName;
    var testName := inp.info.name;
    && d.uuid == inp.uuid
    && d.fullName == FullName(suite, testName)
    && d.historyId == hash(d.fullName)
    && d.testCaseId == TestCaseId(suite, testName)
    && d.testCaseName == DisplayName(inp.caseName, testName)
    && d.name == d.testCaseName
    && |d.labels| == 9 + |inp.tags|
    && d.labels[..9] == FixedLabels(inp.host, inp.thread, suite, testName)
    && (forall k :: 0 <= k < |inp.tags| ==> d.labels[9 + k] == Label("tag", inp.tags[k]))
    && d.links == TmsLinks(inp.tmsId, inp.tmsPattern)
    && d.status == StatusFromGTest(inp.result)
    && d.stage == "finished"
    && d.description == inp.description
    && |d.steps| == |inp.steps|
    && (forall k :: 0 <= k < |inp.steps| ==> d.steps[k] == StepObjectOf(inp.steps[k]))
    && d.attachments == inp.attachments
    && d.parameters == inp.parameters
    && d.start == inp.startMs
    && d.stop == inp.stopMs
  }

  /** Lines 109-218 of OnTestEnd: assembles the document member by member,
      filling the labels, steps, attachments and parameters arrays in loops. */
  method BuildReport(inp: ReportInputs, hash: string -> string) returns (d: ResultDocument)
    ensures IsResultDocument(d, inp, hash)
  {
    var suite := inp.info.suiteName;
    var testName := inp.info.name;
    var fullName := suite + "." + testName;
    var testCaseName := if inp.caseName == "" then testName else inp.caseName;
    var testCaseId := "[gtest]/[suite:" + suite + "]/[test:" + testName + "]";

    var labels: seq<Label> := [];
    labels := labels + [Label("host", inp.host)];
    labels := labels + [Label("thread", inp.thread)];
    labels := labels + [Label("framework", "gtest")];
    labels := labels + [Label("language", "cpp")];
    labels := labels + [Label("package", suite)];
    labels := labels + [Label("testClass", suite)];
    labels := labels + [Label("testMethod", testName)];
    labels := labels + [Label("suite", suite)];
    labels := labels + [Label("junit.platform.uniqueid", testCaseId)];
    var i := 0;
    while i < |inp.tags|
      invariant 0 <= i <= |inp.tags|
      invariant |labels| == 9 + i
      invariant labels[..9] == FixedLabels(inp.host, inp.thread, suite, testName)
      invariant forall k :: 0 <= k < i ==> labels[9 + k] == Label("tag", inp.tags[k])
    {
      labels := labels + [Label("tag", inp.tags[i])];
      i := i + 1;
    }

    var links: seq<Link> := [];
    if inp.tmsId != "" {
      var url := AllureApi.FormatTmsLink(inp.tmsPattern, inp.tmsId);
      links := links + [Link("tms", "TMS", if url == "" then inp.tmsId else url)];
    }

    var steps: seq<StepObject> := [];
    i := 0;
    while i < |inp.steps|
      invariant 0 <= i <= |inp.steps|
      invariant |steps| == i
      invariant forall k :: 0 <= k < i ==> steps[k] == StepObjectOf(inp.steps[k])
    {
      var s := inp.steps[i];
      steps := steps + [StepObject(s.name, s.status, "finished", s.startMs, s.stopMs)];
      i := i + 1;
    }

    var atts: seq<Attachment> := [];
    i := 0;
    while i < |inp.attachments|
      invariant 0 <= i <= |inp.attachments|
      invariant atts == inp.attachments[..i]
    {
      var att := inp.attachments[i];
      atts := atts + [Attachment(att.name, att.source, att.mimeType)];
      i := i + 1;
    }
    assert inp.attachments[..i] == inp.attachments;

    var params: seq<Parameter> := [];
    i := 0;
    while i < |inp.parameters|
      invariant 0 <= i <= |inp.parameters|
      invariant params == inp.parameters[..i]
    {
      var p := inp.parameters[i];
      params := params + [Parameter(p.name, p.value)];
      i := i + 1;
    }
    assert inp.parameters[..i] == inp.parameters;

    d := ResultDocument(
      inp.uuid, hash(fullName), testCaseId, testCaseName, fullName,
      labels, links, testCaseName, StatusFromGTest(inp.result), "finished",
      inp.description, steps, atts, params, inp.startMs, inp.stopMs);
  }

  // ---------------------------------------------------------------------------
  // Properties of the document

  /** The inputs fix the document completely. */
  lemma DocumentIsDetermined(d1: ResultDocument, d2: ResultDocument, inp: ReportInputs, hash: string -> string)
    requires IsResultDocument(d1, inp, hash) && IsResultDocument(d2, inp, hash)
    ensures d1 == d2
  {
    assert d1.labels == d1.labels[..9] + d1.labels[9..];
    assert d2.labels == d2.labels[..9] + d2.labels[9..];
    forall k | 0 <= k < |inp.tags| ensures d1.labels[9..][k] == d2.labels[9..][k] {
      assert d1.labels[9 + k] == Label("tag", inp.tags[k]) == d2.labels[9 + k];
    }
    assert d1.steps == d2.steps;
  }

  /** fullName and historyId come from the suite and gtest names only: a
      different case name, verdict or step list leaves them as they are. */
  lemma HistoryIdIgnoresOverride(d1: ResultDocument, inp1: ReportInputs, d2: ResultDocument, inp2: ReportInputs, hash: string -> string)
    requires IsResultDocument(d1, inp1, hash) && IsResultDocument(d2, inp2, hash)
    requires inp1.info == inp2.info
    ensures d1.fullName == d2.fullName && d1.historyId == d2.historyId && d1.testCaseId == d2.testCaseId
  {
  }

  /** Labels: nine fixed ones, then one "tag" label per tag in order. */
  lemma {:induction false} LabelsLayout(d: ResultDocument, inp: ReportInputs, hash: string -> string)
    requires IsResultDocument(d, inp, hash)
    ensures |d.labels| == 9 + |inp.tags|
    ensures d.labels[0] == Label("host", inp.host) && d.labels[1] == Label("thread", inp.thread)
    ensures d.labels[2] == Label("framework", "gtest") && d.labels[3] == Label("language", "cpp")
    ensures d.labels[4] == Label("package", inp.info.suiteName)
    ensures d.labels[5] == Label("testClass", inp.info.suiteName)
    ensures d.labels[6] == Label("testMethod", inp.info.name)
    ensures d.labels[7] == Label("suite", inp.info.suiteName)
    ensures d.labels[8] == Label("junit.platform.uniqueid", d.testCaseId)
    ensures forall k :: 9 <= k < |d.labels| ==> d.labels[k].name == "tag" && d.labels[k].value == inp.tags[k - 9]
  {
    assert d.labels[..9][0] == d.labels[0] && d.labels[..9][8] == d.labels[8];
    assert d.labels[..9][4] == d.labels[4] && d.labels[..9][5] == d.labels[5];
    assert d.labels[..9][6] == d.labels[6] && d.labels[..9][7] == d.labels[7];
    assert d.labels[..9][1] == d.labels[1] && d.labels[..9][2] == d.labels[2] && d.labels[..9][3] == d.labels[3];
    forall k | 9 <= k < |d.labels| ensures d.labels[k] == Label("tag", inp.tags[k - 9]) {
      assert d.labels[9 + (k - 9)] == Label("tag", inp.tags[k - 9]);
    }
  }

  /** hostName is called twice per test: once for the host label and once
      inside threadLabel. Each label names its own call's answer, or
      "unknown-host" when that call failed; the two labels name the same
      host when the two calls answer alike. */
  lemma HostAndThreadLabels(d: ResultDocument, inp: ReportInputs, hash: string -> string,
                            hostLookup: Option<string>, threadLookup: Option<string>, pid: nat)
    requires IsResultDocument(d, inp, hash)
    requires inp.host == HostName(hostLookup) && inp.thread == ThreadLabel(pid, threadLookup)
    ensures hostLookup.Some? ==> d.labels[0] == Label("host", hostLookup.value)
    ensures hostLookup.None? ==> d.labels[0] == Label("host", "unknown-host")
    ensures exists k :: 0 < k < |d.labels[1].value| && d.labels[1].value[k..] == "@" + HostName(threadLookup) + ".main(1)"
    ensures hostLookup == threadLookup ==>
      exists k :: 0 < k < |d.labels[1].value| && d.labels[1].value[k..] == "@" + d.labels[0].value + ".main(1)"
  {
    LabelsLayout(d, inp, hash);
  }

  /** links is empty exactly when no TMS id is configured, and otherwise
      holds one TMS link. */
  lemma LinksShape(tmsId: string, pattern: string)
    ensures TmsLinks(tmsId, pattern) == [] <==> tmsId == ""
    ensures tmsId != "" ==>
      (|TmsLinks(tmsId, pattern)| == 1
       && TmsLinks(tmsId, pattern)[0].linkType == "tms" && TmsLinks(tmsId, pattern)[0].name == "TMS")
  {
  }

  /** The url of the TMS link in each case of the pattern: the bare id when
      no pattern is configured, the pattern when it has no marker, the
      pattern with its first marker replaced by the id otherwise. */
  lemma TmsLinkUrl(tmsId: string, pattern: string, prefix: string, suffix: string)
    requires tmsId != ""
    ensures pattern == "" ==> TmsLinks(tmsId, pattern) == [Link("tms", "TMS", tmsId)]
    ensures pattern != "" && !AllureApi.HasMarker(pattern) ==> TmsLinks(tmsId, pattern) == [Link("tms", "TMS", pattern)]
    ensures pattern == prefix + "{}" + suffix && !AllureApi.HasMarker(prefix) ==>
      TmsLinks(tmsId, pattern) == [Link("tms", "TMS", prefix + tmsId + suffix)]
  {
    if pattern == prefix + "{}" + suffix && !AllureApi.HasMarker(prefix) {
      AllureApi.FormatTmsLinkSplit(pattern, tmsId, prefix, suffix);
    }
  }

  /** TMS id "T-42" with pattern "tms/{}" links to "tms/T-42". */
  lemma TmsLinkExample()
    ensures TmsLinks("T-42", "tms/{}") == [Link("tms", "TMS", "tms/T-42")]
  {
    var prefix := "tms/";
    var pattern := "tms/{}";
    assert '{' !in prefix;
    AllureApi.NoBraceNoMarker(prefix);
    assert pattern == prefix + "{}" + "";
    AllureApi.FormatTmsLinkSplit(pattern, "T-42", prefix, "");
    assert prefix + "T-42" + "" == "tms/T-42";
  }

  /** The stop time written is after the start time, even when the clock
      has not moved. */
  lemma StopAfterStart(d: ResultDocument, inp: ReportInputs, hash: string -> string, clockMs: int)
    requires IsResultDocument(d, inp, hash) && inp.stopMs == ClampStop(inp.startMs, clockMs)
    ensures d.stop > d.start
    ensures clockMs > inp.startMs ==> d.stop == clockMs
  {
  }

  lemma RelativeResultPath(configured: string, uuid: string)
    requires uuid != "" && uuid[0] != '/'
    ensures var dir := OutputDir(configured);
      var file := uuid + "-result.json";
      var path := ResultPath(dir, uuid);
      && path[..|dir|] == dir
      && path[|path| - |file|..] == file
      && (dir[|dir| - 1] != '/' ==> path == dir + "/" + file)
    ensures configured == "" ==> ResultPath(OutputDir(configured), uuid) == "allure-results/" + uuid + "-result.json"
  {
    assert (uuid + "-result.json")[0] == uuid[0];
  }

  /** The result file of a test whose uuid OnTestStart generated lies in the
      output folder, one separator below it, and is named after the uuid. */
  lemma ResultPathShape(configured: string, a: bv64, b: bv64)
    ensures var dir := OutputDir(configured);
      var file := UuidV4.GenerateUuidV4(a, b) + "-result.json";
      var path := ResultPath(dir, UuidV4.GenerateUuidV4(a, b));
      && path[..|dir|] == dir
      && path[|path| - |file|..] == file
      && (dir[|dir| - 1] != '/' ==> path == dir + "/" + file)
    ensures configured == "" ==>
      ResultPath(OutputDir(configured), UuidV4.GenerateUuidV4(a, b))
        == "allure-results/" + UuidV4.GenerateUuidV4(a, b) + "-result.json"
  {
    UuidV4.StartsWithHexDigit(a, b);
    RelativeResultPath(configured, UuidV4.GenerateUuidV4(a, b));
  }

  // ---------------------------------------------------------------------------
  // The listener and the file system it writes to

  datatype FileOperation =
    | CreateDirectories(path: string)
    | WriteFile(path: string, document: ResultDocument)

  /** The file system, seen as the log of what the listener asked of it. */
  class FileSystem {
    var log: seq<FileOperation>

    constructor ()
      ensures log == []
    {
      log := [];
    }

    method CreateDirectories(path: string)
      modifies this
      ensures log == old(log) + [FileOperation.CreateDirectories(path)]
    {
      log := log + [FileOperation.CreateDirectories(path)];
    }

    method WriteFile(path: string, document: ResultDocument)
      modifies this
      ensures log == old(log) + [FileOperation.WriteFile(path, document)]
    {
      log := log + [FileOperation.WriteFile(path, document)];
    }
  }

  /** The listener's per-worker state: the uuid and start time of the test
      running on this worker (the file's thread-local tl_uuid and tl_startMs). */
  class Listener {
    var uuid: string
    var startMs: int

    constructor ()
      ensures uuid == "" && startMs == 0
    {
      uuid, startMs := "", 0;
    }

    /** OnTestStart: a fresh identifier from the two drawn words, the clock
        reading as start time, and the worker's context begun. */
    method OnTestStart(ctx: AllureApi.Context, info: TestInfo, a: bv64, b: bv64, clockMs: int)
      modifies this, ctx
      ensures uuid == UuidV4.GenerateUuidV4(a, b) && startMs == clockMs
      ensures ctx.steps == [] && ctx.uuid == uuid && ctx.suite == info.suiteName
      ensures ctx.caseName == if old(ctx.caseName) == "" then info.name else old(ctx.caseName)
    {
      uuid := UuidV4.GenerateUuidV4(a, b);
      startMs := clockMs;
      ctx.BeginTestCase(info.suiteName, info.name, uuid);
    }

    /** OnTestEnd: clamps the stop time, creates the output folder, builds
        the document, writes it to `<folder>/<uuid>-result.json` and clears
        the worker's context. `hostLookup` and `threadLookup` are the answers
        of the two gethostname calls, for the host label and inside
        threadLabel. `tags`, `description`, `attachments` and
        `parameters` are what AllureAPI's getters return. */
    method OnTestEnd(ctx: AllureApi.Context, cfg: AllureApi.Config, fs: FileSystem,
                     info: TestInfo, result: TestResult, clockMs: int,
                     hostLookup: Option<string>, threadLookup: Option<string>, pid: nat,
                     tags: seq<string>, description: string,
                     attachments: seq<Attachment>, parameters: seq<Parameter>,
                     hash: string -> string)
      returns (d: ResultDocument)
      modifies ctx, fs
      ensures IsResultDocument(d, ReportInputs(
                info, result, old(ctx.caseName), uuid, startMs, ClampStop(startMs, clockMs),
                HostName(hostLookup), ThreadLabel(pid, threadLookup), cfg.tmsId, cfg.tmsPattern,
                tags, description, old(ctx.steps), attachments, parameters), hash)
      ensures fs.log == old(fs.log) + [CreateDirectories(OutputDir(cfg.outputFolder)),
                                       WriteFile(ResultPath(OutputDir(cfg.outputFolder), uuid), d)]
      ensures ctx.caseName == "" && ctx.suite == "" && ctx.uuid == "" && ctx.steps == []
    {
      ghost var expected := ReportInputs(
        info, result, ctx.caseName, uuid, startMs, ClampStop(startMs, clockMs),
        HostName(hostLookup), ThreadLabel(pid, threadLookup), cfg.tmsId, cfg.tmsPattern,
        tags, description, ctx.steps, attachments, parameters);
      ghost var log0 := fs.log;
      var stopMs := clockMs;
      if stopMs <= startMs {
        stopMs := startMs + 1;
      }

      var outputDir := cfg.outputFolder;
      if outputDir == "" {
        outputDir := "allure-results";
      }
      assert stopMs == ClampStop(startMs, clockMs);
      assert outputDir == OutputDir(cfg.outputFolder);
      fs.CreateDirectories(outputDir);

      var host := HostName(hostLookup);
      var thread := ThreadLabel(pid, threadLookup);
      var inp := ReportInputs(
        info, result, ctx.caseName, uuid, startMs, stopMs,
        host, thread, cfg.tmsId, cfg.tmsPattern,
        tags, description, ctx.steps, attachments, parameters);
      assert inp == expected;
      d := BuildReport(inp, hash);

      fs.WriteFile(ResultPath(outputDir, uuid), d);
      assert fs.log == log0 + [CreateDirectories(outputDir), WriteFile(ResultPath(outputDir, uuid), d)];
      ctx.EndTestCase();
    }
  }

  /** A passing test Checkout.Pay with no steps, tags, attachments or
      parameters under the default configuration. */
  lemma CheckoutPayExample(d: ResultDocument, inp: ReportInputs, hash: string -> string)
    requires inp.info == TestInfo("Checkout", "Pay") && inp.result == TestResult(false, false)
    requires inp.caseName == "" && inp.steps == [] && inp.attachments == [] && inp.parameters == []
    requires IsResultDocument(d, inp, hash)
    ensures d.fullName == "Checkout.Pay" && d.name == "Pay" && d.status == "passed"
    ensures d.steps == [] && d.attachments == [] && d.parameters == []
  {
  }
}
