/**
 * The reporter the Cucumber hooks drive (cucumber-testrail-reporter.ts, class
 * CucumberTestRailReporter): set up a run, record each scenario's outcome into the JSON file of
 * cases, and publish those cases to the service.
 *
 * The JSON file is the reporter's field `stored`: reading the file gives `stored`, writing it
 * replaces `stored`.
 */
module Reporter {
  import opened Wrappers
  import opened CaseIds
  import opened CaseResults
  import opened TestRailClient

  /** Where the case ids of a scenario come from. */
  datatype CaseIdSource = Tags | Title

  /** The reporter's options as the caller hands them over; `None` is an absent property. */
  datatype RawOptions = RawOptions(
    isTestRailRun: Option<bool>,
    jsonLocation: Option<string>,
    testRailConfig: Option<RawConfig>,
    getCaseIdFrom: Option<string>)

  /** A scenario as Cucumber hands it to the hook: its name and the names of its tags. */
  datatype Pickle = Pickle(name: string, tags: seq<string>)

  const MissingOptions: string := "Missing testRailsOptions in testrail.config"
  const DefaultJsonLocation: string := "./testRail.json"
  const PassedStatus: string := "PASSED"

  function MissingOption(name: string): string {
    "Missing '" + name + "' field value. Please update testRailsOptions in testrail.config"
  }

  function InvalidCaseIdSource(value: string): string {
    "Invalid value for getCaseIdFrom : '" + value
      + "'. Accepted Values are \"tags\" or \"title\".Please update testRailsOptions in testrail.config"
  }

  /**
   * The reporter's `_validate` calls: `isTestRailRun` must be present, and a non-empty
   * `getCaseIdFrom` must be "tags" or "title".
   */
  function ValidateOptions(options: Option<RawOptions>): (r: Outcome<string>)
    ensures r.Pass? <==>
      && options.Some?
      && options.value.isTestRailRun.Some?
      && (options.value.getCaseIdFrom.Some? && options.value.getCaseIdFrom.value != "" ==>
            options.value.getCaseIdFrom.value == "tags" || options.value.getCaseIdFrom.value == "title")
    ensures options.None? ==> r == Fail(MissingOptions)
  {
    if options.None? then Fail(MissingOptions)
    else if options.value.isTestRailRun.None? then Fail(MissingOption("isTestRailRun"))
    else
      var source := options.value.getCaseIdFrom;
      if source.Some? && source.value != "" && source.value != "tags" && source.value != "title"
      then Fail(InvalidCaseIdSource(source.value))
      else Pass
  }

  /**
   * The error the reporter's constructor throws, if any: its own option checks first, then the
   * service client's configuration checks.
   */
  function ConstructionError(options: Option<RawOptions>): (e: Option<string>)
    ensures e.None? <==>
      ValidateOptions(options).Pass? && ValidateConfig(options.value.testRailConfig).Pass?
    ensures ValidateOptions(options).Fail? ==> e == Some(ValidateOptions(options).error)
  {
    match ValidateOptions(options)
    case Fail(message) => Some(message)
    case Pass =>
      match ValidateConfig(options.value.testRailConfig)
      case Fail(message) => Some(message)
      case Pass => None
  }

  /** `getCaseIdFrom ? getCaseIdFrom : "tags"`, read as a source once validated. */
  function CaseIdSourceOf(value: Option<string>): (source: CaseIdSource)
    ensures source == Title <==> value == Some("title")
  {
    if value == Some("title") then Title else Tags
  }

  /** Cases are attached to the run only when no run id is configured and "include all" is explicitly off. */
  function AddsTestCases(config: RawConfig): (adds: bool)
    ensures adds ==> NumberOrZero(config.runId) == 0 && !IncludeAllOrTrue(config.includeAll)
    ensures adds <==> config.runId == None && config.includeAll == Some(false)
  {
    config.runId.None? && config.includeAll == Some(false)
  }

  /** The case ids a scenario reports on. */
  function ScenarioCaseIds(source: CaseIdSource, pickle: Pickle): seq<nat> {
    if source == Title then TitleIds(pickle.name) else TagIds(pickle.tags)
  }

  /** `${result?.status}`: the status, or "undefined" when there is none. */
  function StatusText(status: Option<string>): string {
    if status.Some? then status.value else "undefined"
  }

  /** The comment recorded for a scenario. */
  function ScenarioComment(name: string, status: Option<string>): string {
    "Scenario : " + name + ".\n Test case has " + StatusText(status) + ". Validated by Automation User."
  }

  /** What one finished scenario contributes to the cases file. */
  function ScenarioContribution(source: CaseIdSource, pickle: Pickle, status: Option<string>): (c: Contribution)
    ensures c.passed <==> status == Some(PassedStatus)
    ensures source == Tags ==> c.caseIds == TagIds(pickle.tags)
    ensures source == Title ==> c.caseIds == TitleIds(pickle.name)
    ensures c.comment == ScenarioComment(pickle.name, status)
  {
    Contribution(ScenarioCaseIds(source, pickle), status == Some(PassedStatus), ScenarioComment(pickle.name, status))
  }

  /**
   * A scenario is reported on exactly the case ids its source carries: every `@C<digits>` tag
   * (two digits or more) when reading tags, every whole word `C<digits>` or `TC<digits>` when
   * reading the title.
   */
  lemma ScenarioReportsItsCases(source: CaseIdSource, pickle: Pickle, status: Option<string>, id: nat)
    ensures var c := ScenarioContribution(source, pickle, status);
      && (source == Tags ==>
            (id in c.caseIds <==> exists t :: t in pickle.tags && IsCaseTag(t) && TagCaseId(t) == id))
      && (source == Title ==> c.caseIds == TokenIds(Words(pickle.name)))
  {
    if source == Tags {
      TagIdsExactly(pickle.tags, id);
    } else {
      TitleIdsAreCaseTokens(pickle.name);
    }
  }

  /** The attach request publishing sends first, if cases are to be attached. */
  function AttachLog(cases: Cases, runId: int, addTestCases: bool): seq<Request> {
    if addTestCases then [UpdateRun(runId, AttachPayload(false, ObjectKeys(cases.Keys)))] else []
  }

  /** The requests publishing sends for `cases`: the attach call, if any, then the per-case results. */
  function PublishLog(cases: Cases, runId: int, addTestCases: bool, server: Server, history: seq<Request>): seq<Request> {
    var attach := AttachLog(cases, runId, addTestCases);
    attach + CaseResultsLog(runId, cases, server, history + attach)
  }

  class CucumberTestRailReporter {
    const jsonLocation: string
    const isTestRailRun: bool
    const getCaseIdFrom: CaseIdSource
    const testRailApi: TestRailApis
    const addTestCases: bool
    /** The cases held in the JSON file at `jsonLocation`. */
    var stored: Cases

    /**
     * The constructor once every check has passed; `existing` is what the JSON file holds
     * (the empty map when it cannot be read).
     */
    constructor (options: RawOptions, existing: Cases)
      requires ConstructionError(Some(options)).None?
      ensures jsonLocation == (if options.jsonLocation.Some? && options.jsonLocation.value != ""
                               then options.jsonLocation.value else DefaultJsonLocation)
      ensures getCaseIdFrom == CaseIdSourceOf(options.getCaseIdFrom)
      ensures isTestRailRun == options.isTestRailRun.value
      ensures addTestCases == AddsTestCases(options.testRailConfig.value)
      ensures fresh(testRailApi)
      ensures testRailApi.sent == [] && testRailApi.runId == NumberOrZero(options.testRailConfig.value.runId)
      ensures testRailApi.includeAll == IncludeAllOrTrue(options.testRailConfig.value.includeAll)
      ensures testRailApi.domain == options.testRailConfig.value.domain.value + "/index.php?"
      ensures testRailApi.projectId == options.testRailConfig.value.projectId.value
      ensures testRailApi.suiteId == NumberOrZero(options.testRailConfig.value.suiteId)
      ensures testRailApi.runName == TextOrEmpty(options.testRailConfig.value.runName)
      ensures stored == existing
    {
      var config := options.testRailConfig.value;
      jsonLocation := if options.jsonLocation.Some? && options.jsonLocation.value != ""
                      then options.jsonLocation.value else DefaultJsonLocation;
      getCaseIdFrom := if options.getCaseIdFrom == Some("title") then Title else Tags;
      isTestRailRun := options.isTestRailRun.value;
      testRailApi := new TestRailApis(config);
      addTestCases := config.runId == None && config.includeAll == Some(false);
      stored := existing;
    }

    /**
     * setupTestRun: when reporting is on, sets up the run and then empties the cases file; a
     * failed setup leaves the file alone. When reporting is off, nothing happens.
     */
    method SetupTestRun(server: Server, now: string) returns (r: Outcome<string>)
      modifies this`stored, testRailApi`runName, testRailApi`runId, testRailApi`sent
      ensures !isTestRailRun ==>
        && r == Pass && stored == old(stored)
        && unchanged(testRailApi`runName, testRailApi`runId, testRailApi`sent)
      ensures isTestRailRun && old(testRailApi.runId) != 0 ==>
        && r == Pass && stored == map[]
        && unchanged(testRailApi`runName, testRailApi`runId, testRailApi`sent)
      ensures isTestRailRun && old(testRailApi.runId) == 0 ==>
        var c := old(testRailApi.Creation(server, now));
        && testRailApi.sent == old(testRailApi.sent) + c.requests
        && testRailApi.runName == c.runName
        && (c.result.Success? ==> r == Pass && stored == map[] && testRailApi.runId == c.result.value)
        && (c.result.Failure? ==> r == Fail(c.result.error) && stored == old(stored) && testRailApi.runId == 0)
    {
      if isTestRailRun {
        var setup := testRailApi.SetupTestRun(server, now);
        if setup.Failure? {
          return Fail(setup.error);
        }
        stored := map[];
      }
      r := Pass;
    }

    /**
     * afterScenario: reads the scenario's case ids, then folds its outcome into the cases file,
     * whether or not reporting is on.
     */
    method AfterScenario(pickle: Pickle, status: Option<string>)
      modifies this`stored
      ensures var c := ScenarioContribution(getCaseIdFrom, pickle, status);
        stored == Reconciled(old(stored), c.caseIds, c.passed, c.comment)
    {
      var caseIds: seq<nat>;
      if getCaseIdFrom == Title {
        caseIds := CaseIdsFromTitle(pickle.name);
      } else {
        caseIds := CaseIdsFromTags(pickle.tags);
      }
      var casesJson := stored;
      var comment := ScenarioComment(pickle.name, status);
      casesJson := Reconcile(casesJson, caseIds, status == Some(PassedStatus), comment);
      stored := casesJson;
    }

    /**
     * publish: when reporting is on, attaches the recorded cases to the run if so configured,
     * then sends each case's result; when it is off, nothing is sent.
     */
    method Publish(server: Server)
      modifies testRailApi`sent
      ensures !isTestRailRun ==> testRailApi.sent == old(testRailApi.sent)
      ensures isTestRailRun ==>
        testRailApi.sent
          == old(testRailApi.sent) + PublishLog(stored, testRailApi.runId, addTestCases, server, old(testRailApi.sent))
    {
      if isTestRailRun {
        var cases := stored;
        var api := testRailApi;
        ghost var runId := api.runId;
        ghost var history := api.sent;
        ghost var attach := AttachLog(cases, runId, addTestCases);
        if addTestCases {
          api.AddTestCasesToRun(ObjectKeys(cases.Keys), server);
        }
        assert api.sent == history + attach && api.runId == runId;
        ghost var pushed := CaseResultsLog(runId, cases, server, history + attach);
        api.UpdateCaseResultsIndividuallyToRun(cases, server);
        assert api.sent == (history + attach) + pushed;
        assert (history + attach) + pushed == history + (attach + pushed);
        assert attach + pushed == PublishLog(cases, runId, addTestCases, server, history);
      }
    }
  }

  /**
   * `new CucumberTestRailReporter(options)`: throws the first failing check's message, or builds
   * the reporter; `existing` is what the JSON file holds.
   */
  method CreateReporter(options: Option<RawOptions>, existing: Cases) returns (r: Result<CucumberTestRailReporter, string>)
    ensures r.Failure? <==> ConstructionError(options).Some?
    ensures r.Failure? ==> r.error == ConstructionError(options).value
    ensures r.Success? ==> var reporter := r.value;
      && fresh(reporter) && fresh(reporter.testRailApi)
      && reporter.jsonLocation == (if options.value.jsonLocation.Some? && options.value.jsonLocation.value != ""
                                   then options.value.jsonLocation.value else DefaultJsonLocation)
      && reporter.isTestRailRun == options.value.isTestRailRun.value
      && reporter.getCaseIdFrom == CaseIdSourceOf(options.value.getCaseIdFrom)
      && reporter.addTestCases == AddsTestCases(options.value.testRailConfig.value)
      && reporter.testRailApi.sent == []
      && reporter.testRailApi.domain == options.value.testRailConfig.value.domain.value + "/index.php?"
      && reporter.testRailApi.projectId == options.value.testRailConfig.value.projectId.value
      && reporter.testRailApi.suiteId == NumberOrZero(options.value.testRailConfig.value.suiteId)
      && reporter.testRailApi.runName == TextOrEmpty(options.value.testRailConfig.value.runName)
      && reporter.testRailApi.runId == NumberOrZero(options.value.testRailConfig.value.runId)
      && reporter.testRailApi.includeAll == IncludeAllOrTrue(options.value.testRailConfig.value.includeAll)
      && reporter.stored == existing
  {
    var error := ConstructionError(options);
    if error.Some? {
      return Failure(error.value);
    }
    var reporter := new CucumberTestRailReporter(options.value, existing);
    r := Success(reporter);
  }

  /**
   * Publishing sends the recorded cases' results in ascending case id, each carrying that case's
   * status and comment.
   */
  lemma PublishSendsRecordedCases(cases: Cases, runId: int, server: Server, history: seq<Request>)
    ensures forall j :: 0 <= j < |CaseResultsLog(runId, cases, server, history)| ==>
      && CaseResultsLog(runId, cases, server, history)[j].AddResultForCase?
      && CaseResultsLog(runId, cases, server, history)[j].runId == runId
      && CaseResultsLog(runId, cases, server, history)[j].caseId in cases
      && (CaseResultsLog(runId, cases, server, history)[j].result.statusId == 1 <==>
          cases[CaseResultsLog(runId, cases, server, history)[j].caseId].passed)
      && CaseResultsLog(runId, cases, server, history)[j].result.comment
           == cases[CaseResultsLog(runId, cases, server, history)[j].caseId].comment
    ensures forall i, j :: 0 <= i < j < |CaseResultsLog(runId, cases, server, history)| ==>
      CaseResultsLog(runId, cases, server, history)[i].AddResultForCase?
      && CaseResultsLog(runId, cases, server, history)[j].AddResultForCase?
      && CaseResultsLog(runId, cases, server, history)[i].caseId < CaseResultsLog(runId, cases, server, history)[j].caseId
  {
    var keys := ObjectKeys(cases.Keys);
    var log := CaseResultsLog(runId, cases, server, history);
    PushFromRequests(runId, cases, keys, 0, server, history);
    forall j | 0 <= j < |log|
      ensures log[j].AddResultForCase? && log[j].caseId == keys[j] && log[j].runId == runId
      ensures (log[j].result.statusId == 1 <==> cases[keys[j]].passed)
      ensures log[j].result.comment == cases[keys[j]].comment
    {
      assert log[j] == CaseRequest(runId, keys[j], cases[keys[j]]);
    }
  }

  /**
   * Publishing sends at most one result per recorded case, at least one when there are cases,
   * and leaves cases out only after a reply that says the run is already completed.
   */
  lemma PublishStopsOnlyAtClosedRun(cases: Cases, runId: int, server: Server, history: seq<Request>)
    ensures |CaseResultsLog(runId, cases, server, history)| <= |cases|
    ensures cases != map[] ==> |CaseResultsLog(runId, cases, server, history)| >= 1
    ensures 1 <= |CaseResultsLog(runId, cases, server, history)| < |cases| ==>
      StopsPush(ReplyAt(server, history, CaseResultsLog(runId, cases, server, history), |CaseResultsLog(runId, cases, server, history)| - 1))
  {
    var keys := ObjectKeys(cases.Keys);
    ObjectKeysCount(cases.Keys);
    assert |cases| == |cases.Keys|;
    assert cases != map[] ==> keys != [] by {
      if cases != map[] {
        var k :| k in cases;
        assert k in keys;
      }
    }
    PushFromRequests(runId, cases, keys, 0, server, history);
    PushFromStopped(runId, cases, keys, 0, server, history);
  }
}
