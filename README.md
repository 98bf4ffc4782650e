# gtest-allure utilities, modelled in Dafny

This project models the core of a library that adds Allure reporting to
GoogleTest programs. It has three parts.

- **The AllureAPI state** (`allure_api.dfy`, module `AllureApi`). There are two
  kinds of state:
  - the per-worker context of the running test: suite, case name, uuid and
    recorded steps;
  - the process-wide settings: output folder, TMS id, TMS link pattern, epic,
    severity and the suite-label map.

  The module also models the step recorder behind `addAction` and
  `addExpectedResult`, and the TMS link formatter. The context and the
  settings are classes whose methods update their fields in place. The
  recorder is `Context.AddStep`. A step body's result is given as a
  `BodyOutcome`: either a normal return (with the test's failure flag and the
  status checker's answer) or an exception. On an exception the recorder
  appends a "broken" step and re-raises the same fault.
- **The Allure 2 listener** (`listener.dfy` and `uuid.dfy`).
  - `OnTestStart` stamps the test with a version-4 UUID and a start time.
  - `OnTestEnd` clamps the stop time, picks the output folder and builds the
    result document. The document is a datatype holding the JSON members in
    the order they are added. It is written to `<folder>/<uuid>-result.json`,
    and then the worker's context is cleared.
  - The UUID is modelled from its two random 64-bit words (`bv64`). The words
    get their version and variant bits forced, then are written as five
    unpadded lower-case hexadecimal groups (`text_format.dfy` holds the
    numeral writer and its reader).
- **The legacy JSON builder** (`legacy_builder.dfy`, module
  `LegacyJsonBuilder`). It splits a test program into one single-case suite per
  test case. Each suite gets a fresh UUID, is serialized, and is saved to
  `<folder>/<uuid>-results.json`. The builder is a method with nested loops. It
  returns the ordered log of the calls it makes to its three collaborators.

Record types shared by these parts are in `model.dfy` (module `AllureModel`).

The model has no access to the outside world, so those inputs are parameters:

| What the source uses | How the model gets it |
|---|---|
| clock | `clockMs`, `startClock`, `stopClock` |
| random number generator | the words `a`, `b` |
| `gethostname` | two answers, one per call: `hostLookup` for the host label (Allure2Listener.cpp:140) and `threadLookup` for the call inside threadLabel (line 59, reached from line 141); each is an `Option<string>`, None when that call failed (its host is then "unknown-host") |
| `getpid` | `pid: nat` |
| `stableHashHex` | an uninterpreted `hash: string -> string` |
| UUID generator service | `generate: nat -> string`, its k-th answer |
| suite serializer | an uninterpreted `serialize` |
| tags, description, attachments and parameters from AllureAPI | given values |

Facts about the code that the model keeps:

- The code emits exactly the nine fixed labels, in the order host, thread,
  framework, language, package, testClass, testMethod, suite and
  junit.platform.uniqueid, followed by one label per tag.
- The `description` member is always emitted, even when it is empty.
- `historyId` is derived from `std::hash`, which is implementation-defined
  (it is not FNV).
- A TMS link whose formatted url is empty falls back to the raw id.
- Suite labels are stored by the setters but never emitted in a result.
- The legacy file name ends in `-results.json`, while the listener's ends in
  `-result.json`.

## Model

| member | source | states |
|---|---|---|
| TextFormat.ToBase | src/GTestAllureUtilities/Allure2Listener.cpp:84-86 | the stream writes n as an unpadded numeral of the base: digits only, no leading zero, and "0" exactly for zero |
| TextFormat.ToBaseRoundTrip | src/GTestAllureUtilities/Allure2Listener.cpp:84-86 | reading the written numeral back gives n |
| TextFormat.SplitJoin | src/GTestAllureUtilities/Allure2Listener.cpp:84-86 | splitting on the '-' separator recovers a separator-free field followed by the fields of the rest |
| UuidV4.VersionGroup | src/GTestAllureUtilities/Allure2Listener.cpp:80-85 | the third group is 0x4000 OR the low 12 bits of a, and so lies in 0x4000..0x4FFF |
| UuidV4.VariantGroup | src/GTestAllureUtilities/Allure2Listener.cpp:81-86 | the fourth group lies in 0x8000..0xBFFF and its low 14 bits are bits 48..61 of b |
| UuidV4.OtherBitsKept | src/GTestAllureUtilities/Allure2Listener.cpp:80-81 | shaping keeps every bit of a outside the version nibble and sets that nibble to 4; it keeps every bit of b below bit 62 and sets the top two bits to 0b10 |
| UuidV4.GroupsReassemble | src/GTestAllureUtilities/Allure2Listener.cpp:84-86 | the five groups put back together give the two shaped words exactly: no bit is dropped or repeated |
| UuidV4.GenerateUuidV4 | src/GTestAllureUtilities/Allure2Listener.cpp:80-87 | the identifier is five unpadded lower-case hexadecimal numerals separated by '-'; the third reads as a value in 0x4000..0x4FFF and the fourth in 0x8000..0xBFFF (the exact group values are in the lemmas above and RenderRoundTrip) |
| UuidV4.RenderRoundTrip | src/GTestAllureUtilities/Allure2Listener.cpp:83-87 | the identifier splits on '-' into exactly five unpadded lower-case hexadecimal numerals whose values are the five groups |
| AllureApi.FindMarker | src/GTestAllureUtilities/AllureAPI.cpp:230-232 | finds the first position of "{}", or reports that there is none |
| AllureApi.FormatTmsLink | src/GTestAllureUtilities/AllureAPI.cpp:225-237 | an empty pattern gives ""; a pattern without "{}" is returned verbatim; otherwise the length is \|pattern\| - 2 + \|id\| |
| AllureApi.FirstMarkerSplit | src/GTestAllureUtilities/AllureAPI.cpp:231-236 | a pattern with "{}" splits as prefix + "{}" + suffix, with no marker in the prefix |
| AllureApi.FormatTmsLinkSplit | src/GTestAllureUtilities/AllureAPI.cpp:235-236 | only the first "{}" is replaced by the id; the prefix and the whole suffix, with any later "{}", are kept |
| AllureApi.Config.constructor | src/GTestAllureUtilities/AllureAPI.cpp:17-22 | the output folder starts as "allure-results"; the other settings start empty and the label map starts empty |
| AllureApi.Config.SetOutputFolder | src/GTestAllureUtilities/AllureAPI.cpp:76-82 | the folder becomes the value given, and the frame lets no other setting change |
| AllureApi.Config.SetTmsLinksPattern | src/GTestAllureUtilities/AllureAPI.cpp:84-90 | the pattern becomes the value given, and the frame lets no other setting change |
| AllureApi.Config.SetTmsId | src/GTestAllureUtilities/AllureAPI.cpp:96-105 | the TMS id becomes the value given, and the frame lets no other setting change |
| AllureApi.Config.SetTestSuiteLabel | src/GTestAllureUtilities/AllureAPI.cpp:131-140 | labels[k] becomes v; every other key keeps its presence and its value |
| AllureApi.Config.SetTestSuiteName | src/GTestAllureUtilities/AllureAPI.cpp:107-109 | writes the name under the name-property key |
| AllureApi.Config.SetTestSuiteDescription | src/GTestAllureUtilities/AllureAPI.cpp:111-113 | writes the description under the feature-property key |
| AllureApi.Config.SetTestSuiteEpic | src/GTestAllureUtilities/AllureAPI.cpp:115-121 | stores the epic in its own field and under the epic-property key |
| AllureApi.Config.SetTestSuiteSeverity | src/GTestAllureUtilities/AllureAPI.cpp:123-129 | stores the severity in its own field and under the severity-property key |
| AllureApi.StepStatus | src/GTestAllureUtilities/AllureAPI.cpp:178-185 | "broken" exactly when the body threw; "failed" exactly when it returned with the test failing; "passed" exactly when it returned without a failure |
| AllureApi.StepEvents | src/GTestAllureUtilities/AllureAPI.cpp:165-182 | the start notice always comes before the body; after a normal return exactly one more event follows, the end notice with the checker's status; after a throw nothing follows |
| AllureApi.Rethrown | src/GTestAllureUtilities/AllureAPI.cpp:183-188 | a fault escapes exactly when the body threw, and it is the body's own fault |
| AllureApi.Context.constructor | src/GTestAllureUtilities/AllureAPI.cpp:25-28 | a worker starts with empty suite, case name, uuid and steps |
| AllureApi.Context.BeginTestCase | src/GTestAllureUtilities/AllureAPI.cpp:44-57 | the steps are emptied and the uuid and suite are set; a pending case name is kept, otherwise the gtest name is taken |
| AllureApi.Context.EndTestCase | src/GTestAllureUtilities/AllureAPI.cpp:59-64 | case name, suite, uuid and steps are all empty afterwards |
| AllureApi.Context.AddStep | src/GTestAllureUtilities/AllureAPI.cpp:159-193 | appends exactly one step and keeps the earlier ones. The step has the name, the start clock, the status above and the stop clock. The notices follow StepEvents, and the body's fault is rethrown |
| AllureApi.Context.AddAction | src/GTestAllureUtilities/AllureAPI.cpp:149-152 | same as AddStep, with the start notice marked as an action |
| AllureApi.Context.AddExpectedResult | src/GTestAllureUtilities/AllureAPI.cpp:154-157 | same as AddStep, with the start notice not marked as an action |
| AllureApi.NextTestStartsClean | src/GTestAllureUtilities/AllureAPI.cpp:44-64 | after endTestCase, the next beginTestCase starts with no steps and takes the gtest name as the case name |
| Allure2Listener.StatusFromGTest | src/GTestAllureUtilities/Allure2Listener.cpp:35-41 | "skipped" exactly when skipped; "failed" exactly when failed and not skipped; "passed" otherwise |
| Allure2Listener.ClampStop | src/GTestAllureUtilities/Allure2Listener.cpp:98-100 | the stop time is after the start time and no earlier than the clock reading; it is the reading itself, or start + 1 |
| Allure2Listener.HostAndThreadLabels | src/GTestAllureUtilities/Allure2Listener.cpp:43-61 | the host label is the first gethostname call's answer, or "unknown-host" when it failed; the thread label ends with "@" + the second call's host + ".main(1)"; the two labels name the same host when the two calls answer alike |
| Allure2Listener.ThreadLabel | src/GTestAllureUtilities/Allure2Listener.cpp:52-61 | the label is a decimal numeral with the pid's value, followed by "@" + host + ".main(1)" |
| Allure2Listener.DisplayName | src/GTestAllureUtilities/Allure2Listener.cpp:113-115 | a non-empty case name is used as is; an empty one gives the gtest name |
| Allure2Listener.OutputDir | src/GTestAllureUtilities/Allure2Listener.cpp:104-106 | never empty; a configured folder is kept, and an empty one falls back to "allure-results" |
| Allure2Listener.JoinPath | src/GTestAllureUtilities/Allure2Listener.cpp:220 | POSIX `fs::path` join. An absolute file name replaces the folder. Otherwise the path starts with the folder and ends with the file name, with one '/' between them exactly when the folder is non-empty and does not end in '/' |
| Allure2Listener.BuildReport | src/GTestAllureUtilities/Allure2Listener.cpp:109-218 | the document holds every member as described under IsResultDocument: labels, links, status, stage, steps, attachments, parameters, start and stop |
| Allure2Listener.DocumentIsDetermined | src/GTestAllureUtilities/Allure2Listener.cpp:117-218 | the inputs fix the document completely |
| Allure2Listener.HistoryIdIgnoresOverride | src/GTestAllureUtilities/Allure2Listener.cpp:109-125 | fullName, historyId and testCaseId depend on the suite and gtest names only, never on the case-name override |
| Allure2Listener.LabelsLayout | src/GTestAllureUtilities/Allure2Listener.cpp:140-154 | each of the nine labels by name and value, in order: host, thread, framework "gtest", language "cpp", package, testClass, testMethod, suite, junit.platform.uniqueid. Then one "tag" label per tag in order, 9 + \|tags\| in all |
| Allure2Listener.LinksShape | src/GTestAllureUtilities/Allure2Listener.cpp:157-168 | links is empty exactly when the TMS id is empty, and otherwise holds one link of type "tms" named "TMS" |
| Allure2Listener.TmsLinkUrl | src/GTestAllureUtilities/Allure2Listener.cpp:158-166 | the url is the raw id without a pattern, the pattern when it has no marker, and the pattern with its first marker replaced otherwise |
| Allure2Listener.TmsLinkExample | src/GTestAllureUtilities/Allure2Listener.cpp:163-165 | id "T-42" with pattern "tms/{}" links to "tms/T-42" |
| Allure2Listener.StopAfterStart | src/GTestAllureUtilities/Allure2Listener.cpp:217-218 | the emitted stop time is after the emitted start time, and equals the clock reading when that is later than the start |
| UuidV4.StartsWithHexDigit | src/GTestAllureUtilities/Allure2Listener.cpp:84 | the identifier starts with a hexadecimal digit, so it is never an absolute path |
| Allure2Listener.ResultPathShape | src/GTestAllureUtilities/Allure2Listener.cpp:220 | for a generated uuid, the result file lies in the output folder and is named uuid + "-result.json", one '/' below a folder that does not end in '/'. With no folder configured it is "allure-results/<uuid>-result.json" |
| Allure2Listener.FileSystem.CreateDirectories | src/GTestAllureUtilities/Allure2Listener.cpp:107 | the directory creation is logged after all earlier operations |
| Allure2Listener.FileSystem.WriteFile | src/GTestAllureUtilities/Allure2Listener.cpp:225-227 | the write of the document to the path is logged after all earlier operations |
| Allure2Listener.Listener.OnTestStart | src/GTestAllureUtilities/Allure2Listener.cpp:90-95 | the uuid is generated from the two words, the start time is the clock reading, and the context is begun with that uuid |
| Allure2Listener.Listener.OnTestEnd | src/GTestAllureUtilities/Allure2Listener.cpp:97-230 | clamps the stop time and creates the output folder. Then it builds the document from the context as it was before clearing, with the start-time uuid and the clamped stop time. Finally it writes the document to folder/uuid-result.json and clears the context |
| Allure2Listener.CheckoutPayExample | src/GTestAllureUtilities/Allure2Listener.cpp:109-218 | a passing Checkout.Pay test with nothing recorded gets fullName "Checkout.Pay", name "Pay", status "passed" and empty arrays |
| LegacyJsonBuilder.BuildJsonFiles | src/GTestAllureUtilities/Services/Report/TestProgramJSONBuilder.cpp:20-40 | each pair gets three calls in order: a UUID request, the serialization, then the save. Pairs come in suite order and then case order, and the k-th pair gets the k-th UUID |
| LegacyJsonBuilder.FlattenLength | src/GTestAllureUtilities/Services/Report/TestProgramJSONBuilder.cpp:23-27 | one pair per test case over all suites |
| LegacyJsonBuilder.FlattenAt | src/GTestAllureUtilities/Services/Report/TestProgramJSONBuilder.cpp:23-27 | case j of suite i comes at position "cases of earlier suites + j": suite-index order, then case order |
| LegacyJsonBuilder.ExpectedCallsLength | src/GTestAllureUtilities/Services/Report/TestProgramJSONBuilder.cpp:27-38 | three calls per test case |
| LegacyJsonBuilder.ExpectedCallsAt | src/GTestAllureUtilities/Services/Report/TestProgramJSONBuilder.cpp:32-37 | case k's UUID is requested first. The single-case suite carrying it is serialized next, then saved under that UUID's file name |
| LegacyJsonBuilder.SerializedSuiteShape | src/GTestAllureUtilities/Services/Report/TestProgramJSONBuilder.cpp:29-33 | the serialized suite holds only the current case and has the fresh UUID; every other field comes from the original suite |
| LegacyJsonBuilder.CaseFileName | src/GTestAllureUtilities/Services/Report/TestProgramJSONBuilder.cpp:35 | each save path is folder + "/" + uuid + "-results.json" |
| LegacyJsonBuilder.SavesInOrder | src/GTestAllureUtilities/Services/Report/TestProgramJSONBuilder.cpp:32-37 | the saves are exactly one per pair, in order; the k-th goes to the file named after the k-th UUID and holds the serialized single-case suite carrying it |
| LegacyJsonBuilder.SavesPerCase | src/GTestAllureUtilities/Services/Report/TestProgramJSONBuilder.cpp:27-38 | exactly one save and one UUID request per case |
| LegacyJsonBuilder.BuildSavesOnePerCase | src/GTestAllureUtilities/Services/Report/TestProgramJSONBuilder.cpp:22-39 | the number of saves and of UUID requests is the total number of test cases; without test cases no call is made at all |
| LegacyJsonBuilder.ExampleCases | test/UnitTest/Tests/Services/Report/TestProgramJSONBuilderTest.cpp:32-58 | the test's program, with suites of 2, 1 and 0 cases, gives three pairs in order |
| LegacyJsonBuilder.ExampleCaseAt | test/UnitTest/Tests/Services/Report/TestProgramJSONBuilderTest.cpp:115-122 | in the test's run, UUID k+1 is requested at call 3k, and the k-th of exactly three saves goes to folder/CaseUUID-(k+1)-results.json and holds "Serialized" plus that UUID |
| LegacyJsonBuilder.ExampleRun | test/UnitTest/Tests/Services/Report/TestProgramJSONBuilderTest.cpp:105-126 | the builder's own calls on the test's program: nine in all, with CaseUUID-1, -2 and -3 requested in order. The saves among them are exactly the three expected files, in order, with the expected contents |

## Left out

- The file system and file output are not modelled. Creating the folder and writing the result are an operation log. The legacy builder's file service is the `SaveFile` entry of its call log.
- Allure2Listener.Listener.OnTestEnd: creating the folder always succeeds in the model. In the source, `fs::create_directories` (Allure2Listener.cpp:107) throws on failure, for example when permission is denied or a file of that name exists. That exception escapes: no document is built or written, and `endTestCase` (line 229) never runs, so the worker's context stays set. The model has no failure outcome for file operations, so this path is not modelled. A failed `std::ofstream` write (lines 225-227) is silent in the source, and the model does not represent it either.
- The RapidJSON document and its serialized bytes are a foreign library, so the document is a datatype and no bytes are modelled.
- `stableHashHex`: `std::hash` is implementation-defined, so `hash` is an uninterpreted function. Only "the same full name gives the same historyId" is stated.
- The random generator, the clock, `gethostname` and `getpid` are parameters. `generateUuidV4` is modelled from its two drawn words.
- The Windows branches of `hostName` and `threadLabel` are not modelled; only the POSIX branch is.
- `g_mutex` and `thread_local` storage are not modelled. One worker's `Context` and one `Config` stand for them.
- Only the `g_*` side of the setters is modelled. Their forwarding to `m_testProgram` and the property-setter services is not: those classes are not part of this model. This affects `setOutputFolder`, `setTMSLinksPattern`, `setTMSId` and `setTestSuiteLabel`.
- `setTestCaseName`, `setFormat`, `setTestProgramName`, `buildListener` and `getServicesFactory` only call classes that are not part of this model.
- The getters `getOutputFolder`, `getTMSId`, `getTestSuiteEpic`, `getTestSuiteSeverity`, `getTestSuiteLabels`, `getSteps`, `getCurrentTestSuiteName` and `getCurrentTestCaseName` are reads of the `Config` and `Context` fields, so they have no members of their own.
- `getTags`, `getDescription`, `getAttachments` and `getParameters` are not defined in the modelled files. Their results are inputs to `OnTestEnd`.
- The step start/end observers, the status checker and `::testing::Test::HasFailure` are not modelled as calls. They appear as the `StepEvent` log and the `BodyOutcome` fields.
- The property keys `NAME_PROPERTY`, `FEATURE_PROPERTY`, `EPIC_PROPERTY` and `SEVERITY_PROPERTY` are defined in Model/TestProperty.h, which is not part of this model. They have placeholder values, and nothing depends on them beyond being distinct.
- `TestProgramEndEventHandler.cpp` is only a gate around `buildJSONFiles`, so it is not modelled.
- The serializer's output format is not modelled: `ITestSuiteJSONSerializer` is abstract.
- Allure2Listener.ClampStop: does not model the `int64_t` overflow of `tl_startMs + 1`, because times are unbounded integers.
- LegacyJsonBuilder.BuildJsonFiles: does not model the cast of the suite count to `unsigned int`. It would drop suites only past 2^32 of them.
- AllureApi.Context.AddStep: assumes that only the step body can throw. In the source, an exception from the status checker, `HasFailure` or the step-end observer (AllureAPI.cpp:172-182) also appends a "broken" step and is rethrown. An exception from the step-start observer (lines 165-167) escapes with no step appended. Neither path is modelled, because the model has no outcome for those calls.
- AllureApi.Context.AddStep: the clock readings are the `startClock` and `stopClock` parameters. Their order relative to the notices is stated in the doc comment, not as a contract. A step's stop time is not clamped, as in the source.
- LegacyJsonBuilder.BuildJsonFiles: the UUID generator is the function `generate` from the request count to the k-th answer. It is not a stateful service.
