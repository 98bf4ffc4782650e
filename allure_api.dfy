/** The user-facing API of AllureAPI.cpp: the per-worker context of the test
    that is running (the thread-local tl_suite, tl_case, tl_uuid and tl_steps),
    the process-wide settings (the g_* globals and g_suiteLabels), the step
    recorder behind addAction/addExpectedResult, and the TMS link formatter. */
module AllureApi {
  import opened AllureModel

  /** The folder results go to until setOutputFolder is called. */
  const DefaultOutputFolder: string := "allure-results"

  /** Keys of Model/TestProperty.h, which is not part of this model: the texts
      below stand in for NAME_PROPERTY, FEATURE_PROPERTY, EPIC_PROPERTY and
      SEVERITY_PROPERTY; nothing here depends on them beyond being distinct. */
  const NameProperty: string := "name"
  const FeatureProperty: string := "feature"
  const EpicProperty: string := "epic"
  const SeverityProperty: string := "severity"

  // ---------------------------------------------------------------------------
  // formatTMSLink

  /** The two-character substitution marker "{}" starts at index i of s. */
  predicate MarkerAt(s: string, i: int)
  {
    0 <= i && i + 1 < |s| && s[i] == '{' && s[i + 1] == '}'
  }

  predicate HasMarker(s: string)
  {
    exists i | 0 <= i < |s| :: MarkerAt(s, i)
  }

  lemma NoBraceNoMarker(s: string)
    requires '{' !in s
    ensures !HasMarker(s)
  {
    forall i | 0 <= i < |s| ensures !MarkerAt(s, i) {
      assert s[i] in s;
    }
  }

  /** `std::string::find("{}")`: the first index where the marker starts. */
  function FindMarker(s: string): (r: Option<nat>)
    ensures r.Some? ==> MarkerAt(s, r.value) && forall i :: 0 <= i < r.value ==> !MarkerAt(s, i)
    ensures r.None? ==> !HasMarker(s)
  {
    if |s| < 2 then None
    else if s[0] == '{' && s[1] == '}' then Some(0)
    else
      match FindMarker(s[1..])
      case None =>
        assert forall i :: MarkerAt(s, i) ==> i > 0 && MarkerAt(s[1..], i - 1);
        None
      case Some(k) =>
        assert forall i :: 0 < i <= k ==> (MarkerAt(s, i) <==> MarkerAt(s[1..], i - 1));
        Some(k + 1)
  }

  /** The link for tmsId under the configured pattern: "" when no pattern is
      configured, the pattern itself when it has no marker, and otherwise the
      pattern with its first "{}" replaced by tmsId. */
  function FormatTmsLink(pattern: string, tmsId: string): (url: string)
    ensures pattern == "" ==> url == ""
    ensures pattern != "" && !HasMarker(pattern) ==> url == pattern
    ensures HasMarker(pattern) ==> |url| == |pattern| - 2 + |tmsId|
  {
    if pattern == "" then ""
    else
      match FindMarker(pattern)
      case None => pattern
      case Some(pos) => pattern[..pos] + tmsId + pattern[pos + 2..]
  }

  /** Every pattern with a marker splits at its first marker into a prefix
      free of markers, the marker, and the rest. */
  lemma FirstMarkerSplit(pattern: string) returns (prefix: string, suffix: string)
    requires HasMarker(pattern)
    ensures pattern == prefix + "{}" + suffix && !HasMarker(prefix)
  {
    var pos := FindMarker(pattern).value;
    prefix, suffix := pattern[..pos], pattern[pos + 2..];
    assert pattern == prefix + pattern[pos..pos + 2] + suffix;
    forall i | MarkerAt(prefix, i) ensures false {
      assert MarkerAt(pattern, i);
    }
  }

  /** Substitution replaces exactly the first marker: whatever follows it,
      further markers included, is kept verbatim. */
  lemma {:induction false} FormatTmsLinkSplit(pattern: string, tmsId: string, prefix: string, suffix: string)
    requires pattern == prefix + "{}" + suffix && !HasMarker(prefix)
    ensures FormatTmsLink(pattern, tmsId) == prefix + tmsId + suffix
  {
    var n := |prefix|;
    assert MarkerAt(pattern, n);
    forall i | 0 <= i < n ensures !MarkerAt(pattern, i) {
      if i + 1 < n {
        assert !MarkerAt(prefix, i);
      } else {
        assert pattern[i + 1] == '{';
      }
    }
    var pos := FindMarker(pattern).value;
    assert pos == n;
    assert pattern[..pos] == prefix;
    assert pattern[pos + 2..] == suffix;
  }

  // ---------------------------------------------------------------------------
  // Process-wide settings

  /** The g_* globals of AllureAPI.cpp. Each getter of the source is a read of
      the field of the same name. */
  class Config {
    var outputFolder: string
    var tmsId: string
    var tmsPattern: string
    var epic: string
    var severity: string
    var suiteLabels: map<string, string>

    constructor ()
      ensures outputFolder == DefaultOutputFolder
      ensures tmsId == "" && tmsPattern == "" && epic == "" && severity == ""
      ensures suiteLabels == map[]
    {
      outputFolder := DefaultOutputFolder;
      tmsId, tmsPattern, epic, severity := "", "", "", "";
      suiteLabels := map[];
    }

    method SetOutputFolder(folder: string)
      modifies this`outputFolder
      ensures outputFolder == folder
    {
      outputFolder := folder;
    }

    method SetTmsLinksPattern(pattern: string)
      modifies this`tmsPattern
      ensures tmsPattern == pattern
    {
      tmsPattern := pattern;
    }

    method SetTmsId(id: string)
      modifies this`tmsId
      ensures tmsId == id
    {
      tmsId := id;
    }

    /** `g_suiteLabels[name] = value`: inserts or overwrites one key. */
    method SetTestSuiteLabel(name: string, value: string)
      modifies this`suiteLabels
      ensures suiteLabels == old(suiteLabels)[name := value]
      ensures name in suiteLabels && suiteLabels[name] == value
      ensures forall k :: k != name ==> (k in suiteLabels <==> k in old(suiteLabels))
      ensures forall k :: k != name && k in suiteLabels ==> suiteLabels[k] == old(suiteLabels)[k]
    {
      suiteLabels := suiteLabels[name := value];
    }

    method SetTestSuiteName(name: string)
      modifies this`suiteLabels
      ensures suiteLabels == old(suiteLabels)[NameProperty := name]
    {
      SetTestSuiteLabel(NameProperty, name);
    }

    method SetTestSuiteDescription(description: string)
      modifies this`suiteLabels
      ensures suiteLabels == old(suiteLabels)[FeatureProperty := description]
    {
      SetTestSuiteLabel(FeatureProperty, description);
    }

    method SetTestSuiteEpic(value: string)
      modifies this`epic, this`suiteLabels
      ensures epic == value
      ensures suiteLabels == old(suiteLabels)[EpicProperty := value]
    {
      epic := value;
      SetTestSuiteLabel(EpicProperty, value);
    }

    method SetTestSuiteSeverity(value: string)
      modifies this`severity, this`suiteLabels
      ensures severity == value
      ensures suiteLabels == old(suiteLabels)[SeverityProperty := value]
    {
      severity := value;
      SetTestSuiteLabel(SeverityProperty, value);
    }
  }

  // ---------------------------------------------------------------------------
  // Step recording

  /** An exception escaping a step body; only its identity matters. */
  datatype Fault = Fault(what: string)

  /** How a step body ended. `Returned` carries what the recorder asks after
      a normal return: whether the running test has a failure
      (`::testing::Test::HasFailure()`) and what the status checker reports
      (an opaque value forwarded to the step-end observer). */
  datatype BodyOutcome =
    | Returned(hasFailure: bool, checkerStatus: string)
    | Threw(fault: Fault)

  /** What the recorder does around the body, in order: notify the step-start
      observer, run the body, notify the step-end observer. */
  datatype StepEvent =
    | StepStartNotified(name: string, isAction: bool)
    | BodyRan
    | StepEndNotified(checkerStatus: string)

  /** The status a step gets from the way its body ended. */
  function StepStatus(outcome: BodyOutcome): (status: string)
    ensures status == "broken" <==> outcome.Threw?
    ensures status == "failed" <==> outcome.Returned? && outcome.hasFailure
    ensures status == "passed" <==> outcome.Returned? && !outcome.hasFailure
  {
    match outcome
    case Threw(_) => "broken"
    case Returned(hasFailure, _) => if hasFailure then "failed" else "passed"
  }

  /** The step the recorder appends: `startMs` is the clock read before the
      start notification, `stopMs` the one read after the body. */
  function RecordedStep(name: string, outcome: BodyOutcome, startMs: int, stopMs: int): (step: Step)
  {
    Step(name, StepStatus(outcome), startMs, stopMs, [], [])
  }

  /** The observer traffic of one recorded step: the start notice always comes
      before the body; the end notice follows only a normal return. */
  function StepEvents(name: string, isAction: bool, outcome: BodyOutcome): (events: seq<StepEvent>)
    ensures |events| >= 2 && events[0] == StepStartNotified(name, isAction) && events[1] == BodyRan
    ensures outcome.Threw? <==> |events| == 2
    ensures outcome.Returned? ==> |events| == 3 && events[2] == StepEndNotified(outcome.checkerStatus)
  {
    match outcome
    case Threw(_) => [StepStartNotified(name, isAction), BodyRan]
    case Returned(_, checkerStatus) =>
      [StepStartNotified(name, isAction), BodyRan, StepEndNotified(checkerStatus)]
  }

  /** What escapes the recorder: the body's own fault, unchanged, or nothing. */
  function Rethrown(outcome: BodyOutcome): (escaped: Option<Fault>)
    ensures escaped.Some? <==> outcome.Threw?
    ensures outcome.Threw? ==> escaped.value == outcome.fault
  {
    match outcome
    case Threw(fault) => Some(fault)
    case Returned(_, _) => None
  }

  // ---------------------------------------------------------------------------
  // Per-worker context

  /** The thread-local state of the test running on one worker. */
  class Context {
    var suite: string
    var caseName: string
    var uuid: string
    var steps: seq<Step>

    constructor ()
      ensures suite == "" && caseName == "" && uuid == "" && steps == []
    {
      suite, caseName, uuid, steps := "", "", "", [];
    }

    /** beginTestCase: clears the steps and sets uuid and suite; a pending
        case name is kept, otherwise the gtest name is taken. */
    method BeginTestCase(suiteName: string, gtestName: string, testUuid: string)
      modifies this
      ensures steps == [] && uuid == testUuid && suite == suiteName
      ensures caseName == if old(caseName) == "" then gtestName else old(caseName)
    {
      steps := [];
      uuid := testUuid;
      suite := suiteName;
      if caseName == "" {
        caseName := gtestName;
      }
    }

    /** endTestCase: forgets everything about the finished test. */
    method EndTestCase()
      modifies this
      ensures caseName == "" && suite == "" && uuid == "" && steps == []
    {
      caseName, suite, uuid, steps := "", "", "", [];
    }

    /** addStep: reads the clock (`startClock`), notifies the start, runs the
        body, and appends exactly one step whatever the body did; on a throw
        the step is "broken", no end notice is sent and the same fault is
        raised again (`rethrown`). `stopClock` is the clock read after the body. */
    method AddStep(name: string, isAction: bool, body: BodyOutcome, startClock: int, stopClock: int)
      returns (events: seq<StepEvent>, rethrown: Option<Fault>)
      modifies this`steps
      ensures steps == old(steps) + [RecordedStep(name, body, startClock, stopClock)]
      ensures events == StepEvents(name, isAction, body)
      ensures rethrown == Rethrown(body)
    {
      var s := Step(name, "", startClock, 0, [], []);
      events := [StepStartNotified(name, isAction)];
      events := events + [BodyRan];
      if body.Threw? {
        s := s.(status := "broken", stopMs := stopClock);
        steps := steps + [s];
        rethrown := Some(body.fault);
        return;
      }
      s := s.(status := if body.hasFailure then "failed" else "passed");
      events := events + [StepEndNotified(body.checkerStatus)];
      s := s.(stopMs := stopClock);
      steps := steps + [s];
      rethrown := None;
    }

    /** addAction: a step recorded as an action. */
    method AddAction(name: string, body: BodyOutcome, startClock: int, stopClock: int)
      returns (events: seq<StepEvent>, rethrown: Option<Fault>)
      modifies this`steps
      ensures steps == old(steps) + [RecordedStep(name, body, startClock, stopClock)]
      ensures events == StepEvents(name, true, body)
      ensures rethrown == Rethrown(body)
    {
      events, rethrown := AddStep(name, true, body, startClock, stopClock);
    }

    /** addExpectedResult: a step recorded as an expected-result check. */
    method AddExpectedResult(name: string, body: BodyOutcome, startClock: int, stopClock: int)
      returns (events: seq<StepEvent>, rethrown: Option<Fault>)
      modifies this`steps
      ensures steps == old(steps) + [RecordedStep(name, body, startClock, stopClock)]
      ensures events == StepEvents(name, false, body)
      ensures rethrown == Rethrown(body)
    {
      events, rethrown := AddStep(name, false, body, startClock, stopClock);
    }
  }

  /** A test after a finished one starts from an empty step list and takes
      the gtest name, whatever the previous test recorded. */
  method NextTestStartsClean(ctx: Context, suiteName: string, gtestName: string, testUuid: string)
    modifies ctx
    ensures ctx.steps == [] && ctx.caseName == gtestName
    ensures ctx.suite == suiteName && ctx.uuid == testUuid
  {
    ctx.EndTestCase();
    ctx.BeginTestCase(suiteName, gtestName, testUuid);
  }
}
