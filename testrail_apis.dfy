/**
 * The client of the test-management service (lib/testRail-apis.ts, class testRailApis).
 *
 * The HTTP transport is abstracted into a `Server`: its reply to each request, which may depend
 * on everything sent before. The client records every request it sends in `sent`, so the
 * contracts below say exactly which calls are made, in which order, with which payloads.
 */
module TestRailClient {
  import opened Wrappers
  import opened Text
  import opened CaseResults

  // ---------------------------------------------------------------------------------------
  // Configuration
  // ---------------------------------------------------------------------------------------

  /** The client's configuration as the caller hands it over; `None` is an absent property. */
  datatype RawConfig = RawConfig(
    domain: Option<string>,
    username: Option<string>,
    password: Option<string>,
    projectId: Option<int>,
    suiteId: Option<int>,
    runName: Option<string>,
    runId: Option<int>,
    includeAll: Option<bool>)

  const MissingConfig: string := "Missing testRailsOptions in wdio.conf"

  function MissingField(name: string): string {
    "Missing " + name + " value. Please update testRailsOptions in wdio.conf"
  }

  /**
   * `_validate` for domain, username, password and projectId, in that order: the first check
   * that fails is the error thrown.
   */
  function ValidateConfig(config: Option<RawConfig>): (r: Outcome<string>)
    ensures r.Pass? <==>
      && config.Some?
      && config.value.domain.Some? && config.value.username.Some?
      && config.value.password.Some? && config.value.projectId.Some?
    ensures config.None? ==> r == Fail(MissingConfig)
    ensures config.Some? && config.value.domain.None? ==> r == Fail(MissingField("domain"))
  {
    if config.None? then Fail(MissingConfig)
    else if config.value.domain.None? then Fail(MissingField("domain"))
    else if config.value.username.None? then Fail(MissingField("username"))
    else if config.value.password.None? then Fail(MissingField("password"))
    else if config.value.projectId.None? then Fail(MissingField("projectId"))
    else Pass
  }

  /** `value ? value : 0` for an optional number: absent and 0 both give 0. */
  function NumberOrZero(value: Option<int>): (n: int)
    ensures value.None? ==> n == 0
    ensures value.Some? ==> n == value.value
  {
    if value.Some? && value.value != 0 then value.value else 0
  }

  /** `value ? value : ""` for an optional string: absent and "" both give "". */
  function TextOrEmpty(value: Option<string>): (s: string)
    ensures value.None? ==> s == ""
    ensures value.Some? ==> s == value.value
  {
    if value.Some? && value.value != "" then value.value else ""
  }

  /** `value === false ? false : true`: only an explicit `false` switches "include all" off. */
  function IncludeAllOrTrue(value: Option<bool>): (b: bool)
    ensures !b <==> value == Some(false)
  {
    if value.Some? && value.value == false then false else true
  }

  // ---------------------------------------------------------------------------------------
  // The wire: requests, responses and the service
  // ---------------------------------------------------------------------------------------

  /** Body of `add_run`; `suiteId` is sent only when a suite is configured. */
  datatype RunPayload = RunPayload(name: string, includeAll: bool, suiteId: Option<int>)

  /** Body of `add_result_for_case`. */
  datatype CasePayload = CasePayload(statusId: int, comment: string, customExecuted: int)

  /** Body of `update_run`. */
  datatype AttachPayload = AttachPayload(includeAll: bool, caseIds: seq<nat>)

  /** One call to the service's API. */
  datatype Request =
    | AddRun(projectId: int, run: RunPayload)
    | GetSuite(suiteId: int)
    | UpdateRun(runId: int, attach: AttachPayload)
    | AddResultForCase(runId: int, caseId: nat, result: CasePayload)
    | AddResultsForCases(runId: int, payload: Results)

  /** A reply: the fields the client reads from a success body (a run's id, a suite's name), or the service's error text. */
  datatype Response = Ok(id: int, name: string) | Error(message: string)

  /** The service: its reply to a request, given every request sent before it. */
  type Server = (seq<Request>, Request) -> Response

  /** `response.data.id`, or the failure the awaited call throws. */
  function IdOf(response: Response): (r: Result<int, string>)
    ensures r.Success? <==> response.Ok?
    ensures response.Ok? ==> r.value == response.id
    ensures response.Error? ==> r.error == response.message
  {
    match response
    case Ok(id, _) => Success(id)
    case Error(message) => Failure(message)
  }

  // ---------------------------------------------------------------------------------------
  // Creating a run
  // ---------------------------------------------------------------------------------------

  const AutomationRunPrefix: string := "Automation Run - "

  /** The `add_run` body for a run name. */
  function RunPayloadFor(name: string, includeAll: bool, suiteId: int): (p: RunPayload)
    ensures p.name == name && p.includeAll == includeAll
    ensures p.suiteId.Some? <==> suiteId != 0
    ensures p.suiteId.Some? ==> p.suiteId.value == suiteId
  {
    RunPayload(name, includeAll, if suiteId != 0 then Some(suiteId) else None)
  }

  /** What creating a run does: the run name left in the client, the requests sent, and the new run's id. */
  datatype RunCreation = RunCreation(runName: string, requests: seq<Request>, result: Result<int, string>)

  /**
   * createNewTestRun and createTestRunNameFromSuite: a run without a configured name is named
   * after its suite (fetched from the service) or "Automation Run", with the time appended.
   */
  function CreateRunExchange(projectId: int, suiteId: int, includeAll: bool, runName: string, now: string,
                             server: Server, history: seq<Request>): (c: RunCreation)
    ensures runName != "" ==> c.runName == runName
    ensures runName == "" && suiteId == 0 ==> c.runName == AutomationRunPrefix + now
    ensures suiteId == 0 || runName != "" ==> |c.requests| == 1
    ensures 1 <= |c.requests| <= 2
    ensures |c.requests| == 2 ==> c.requests[0] == GetSuite(suiteId)
    ensures suiteId == 0 || runName != "" ==>
      && c.requests == [AddRun(projectId, RunPayloadFor(c.runName, includeAll, suiteId))]
      && c.result == IdOf(server(history, c.requests[0]))
    ensures runName == "" && suiteId != 0 && server(history, GetSuite(suiteId)).Error? ==>
      && c.requests == [GetSuite(suiteId)] && c.runName == runName
      && c.result == Failure(server(history, GetSuite(suiteId)).message)
    ensures runName == "" && suiteId != 0 && server(history, GetSuite(suiteId)).Ok? ==>
      && c.runName == server(history, GetSuite(suiteId)).name + " | " + now
      && c.requests == [GetSuite(suiteId), AddRun(projectId, RunPayloadFor(c.runName, includeAll, suiteId))]
      && c.result == IdOf(server(history + [GetSuite(suiteId)], c.requests[1]))
    ensures c.result.Success? ==>
      && c.requests[|c.requests| - 1] == AddRun(projectId, RunPayloadFor(c.runName, includeAll, suiteId))
      && IdOf(server(history + c.requests[..|c.requests| - 1], c.requests[|c.requests| - 1])) == c.result
  {
    if runName == "" && suiteId != 0 then
      var suiteRequest := GetSuite(suiteId);
      match server(history, suiteRequest)
      case Error(message) => RunCreation(runName, [suiteRequest], Failure(message))
      case Ok(_, suiteName) =>
        var name := suiteName + " | " + now;
        var add := AddRun(projectId, RunPayloadFor(name, includeAll, suiteId));
        assert history + [suiteRequest, add][..1] == history + [suiteRequest];
        RunCreation(name, [suiteRequest, add], IdOf(server(history + [suiteRequest], add)))
    else
      var name := if runName == "" then AutomationRunPrefix + now else runName;
      var add := AddRun(projectId, RunPayloadFor(name, includeAll, suiteId));
      assert history + [add][..0] == history;
      RunCreation(name, [add], IdOf(server(history, add)))
  }

  // ---------------------------------------------------------------------------------------
  // Pushing per-case results
  // ---------------------------------------------------------------------------------------

  const InvalidCaseError: string := "case_id is not a valid test case"
  const ClosedRunError: string := "The test run is already completed"

  /** The `add_result_for_case` body for a case's result. */
  function CasePayloadFor(result: CaseResult): (p: CasePayload)
    ensures p.statusId == 1 <==> result.passed
    ensures p.statusId == 5 <==> !result.passed
    ensures p.comment == result.comment && p.customExecuted == 9
  {
    CasePayload(StatusId(result.passed), result.comment, 9)
  }

  function CaseRequest(runId: int, caseId: nat, result: CaseResult): Request {
    AddResultForCase(runId, caseId, CasePayloadFor(result))
  }

  /**
   * A reply that ends the per-case loop: an error that does not mention an invalid case id but
   * says the run is already completed. Every other error is logged and the loop goes on.
   */
  predicate StopsPush(response: Response) {
    response.Error? && !Contains(response.message, InvalidCaseError) && Contains(response.message, ClosedRunError)
  }

  /** The requests the per-case loop sends from index `i` of `keys` on, after `history`. */
  function PushFrom(runId: int, cases: Cases, keys: seq<nat>, i: nat, server: Server, history: seq<Request>): seq<Request>
    requires i <= |keys|
    requires forall k :: k in keys ==> k in cases
    decreases |keys| - i
  {
    if i == |keys| then []
    else
      var request := CaseRequest(runId, keys[i], cases[keys[i]]);
      if StopsPush(server(history, request)) then [request]
      else [request] + PushFrom(runId, cases, keys, i + 1, server, history + [request])
  }

  /** The requests the per-case loop sends for `keys`, after `history`. */
  function PushLog(runId: int, cases: Cases, keys: seq<nat>, server: Server, history: seq<Request>): seq<Request>
    requires forall k :: k in keys ==> k in cases
  {
    PushFrom(runId, cases, keys, 0, server, history)
  }

  /** The requests updateCaseResultsIndividuallyToRun sends for `cases`, after `history`. */
  function CaseResultsLog(runId: int, cases: Cases, server: Server, history: seq<Request>): seq<Request> {
    PushLog(runId, cases, ObjectKeys(cases.Keys), server, history)
  }

  /** One turn of the per-case loop, stated on the whole log sent so far. */
  lemma PushAdvance(runId: int, cases: Cases, keys: seq<nat>, i: nat, server: Server, history: seq<Request>)
    requires i < |keys|
    requires forall k :: k in keys ==> k in cases
    ensures var request := CaseRequest(runId, keys[i], cases[keys[i]]);
      && (StopsPush(server(history, request)) ==>
            history + [request] == history + PushFrom(runId, cases, keys, i, server, history))
      && (!StopsPush(server(history, request)) ==>
            (history + [request]) + PushFrom(runId, cases, keys, i + 1, server, history + [request])
              == history + PushFrom(runId, cases, keys, i, server, history))
  {
  }

  /** The service's reply to the `j`-th request of `log`, sent after `history` and the requests before it. */
  function ReplyAt(server: Server, history: seq<Request>, log: seq<Request>, j: nat): Response
    requires j < |log|
  {
    server(history + log[..j], log[j])
  }

  lemma {:induction false} PushFromRequests(runId: int, cases: Cases, keys: seq<nat>, i: nat, server: Server, history: seq<Request>)
    requires i <= |keys|
    requires forall k :: k in keys ==> k in cases
    ensures |PushFrom(runId, cases, keys, i, server, history)| <= |keys| - i
    ensures i < |keys| ==> |PushFrom(runId, cases, keys, i, server, history)| >= 1
    ensures forall j :: 0 <= j < |PushFrom(runId, cases, keys, i, server, history)| ==>
      PushFrom(runId, cases, keys, i, server, history)[j] == CaseRequest(runId, keys[i + j], cases[keys[i + j]])
    decreases |keys| - i
  {
    if i < |keys| {
      var log := PushFrom(runId, cases, keys, i, server, history);
      var request := CaseRequest(runId, keys[i], cases[keys[i]]);
      if StopsPush(server(history, request)) {
        assert log == [request];
      } else {
        var rest := PushFrom(runId, cases, keys, i + 1, server, history + [request]);
        PushFromRequests(runId, cases, keys, i + 1, server, history + [request]);
        assert log == [request] + rest;
        forall j | 1 <= j < |log| ensures log[j] == CaseRequest(runId, keys[i + j], cases[keys[i + j]]) {
          assert log[j] == rest[j - 1];
          assert i + j == (i + 1) + (j - 1);
        }
      }
    }
  }

  /** Prepending a request shifts every later reply by one position. */
  lemma ReplyAfterFirst(server: Server, history: seq<Request>, request: Request, rest: seq<Request>, j: nat)
    requires 1 <= j <= |rest|
    ensures ReplyAt(server, history, [request] + rest, j) == ReplyAt(server, history + [request], rest, j - 1)
  {
    assert ([request] + rest)[..j] == [request] + rest[..j - 1];
    assert history + ([request] + rest[..j - 1]) == (history + [request]) + rest[..j - 1];
  }

  lemma {:induction false} PushFromContinues(runId: int, cases: Cases, keys: seq<nat>, i: nat, server: Server, history: seq<Request>)
    requires i <= |keys|
    requires forall k :: k in keys ==> k in cases
    ensures forall j :: 0 <= j < |PushFrom(runId, cases, keys, i, server, history)| - 1 ==>
      !StopsPush(ReplyAt(server, history, PushFrom(runId, cases, keys, i, server, history), j))
    decreases |keys| - i
  {
    if i < |keys| {
      var log := PushFrom(runId, cases, keys, i, server, history);
      var request := CaseRequest(runId, keys[i], cases[keys[i]]);
      if !StopsPush(server(history, request)) {
        var rest := PushFrom(runId, cases, keys, i + 1, server, history + [request]);
        PushFromContinues(runId, cases, keys, i + 1, server, history + [request]);
        assert forall j :: 0 <= j < |rest| - 1 ==> !StopsPush(ReplyAt(server, history + [request], rest, j));
        assert log == [request] + rest;
        assert ReplyAt(server, history, log, 0) == server(history, request) by {
          assert history + log[..0] == history;
        }
        forall j | 1 <= j < |log| - 1 ensures !StopsPush(ReplyAt(server, history, log, j)) {
          ReplyAfterFirst(server, history, request, rest, j);
          assert 0 <= j - 1 < |rest| - 1;
          assert !StopsPush(ReplyAt(server, history + [request], rest, j - 1));
        }
      }
    }
  }

  lemma {:induction false} PushFromStopped(runId: int, cases: Cases, keys: seq<nat>, i: nat, server: Server, history: seq<Request>)
    requires i <= |keys|
    requires forall k :: k in keys ==> k in cases
    ensures var log := PushFrom(runId, cases, keys, i, server, history);
      1 <= |log| < |keys| - i ==> StopsPush(ReplyAt(server, history, log, |log| - 1))
    decreases |keys| - i
  {
    if i < |keys| {
      var log := PushFrom(runId, cases, keys, i, server, history);
      var request := CaseRequest(runId, keys[i], cases[keys[i]]);
      if StopsPush(server(history, request)) {
        assert log == [request];
        assert history + log[..0] == history;
      } else {
        var rest := PushFrom(runId, cases, keys, i + 1, server, history + [request]);
        PushFromStopped(runId, cases, keys, i + 1, server, history + [request]);
        PushFromRequests(runId, cases, keys, i + 1, server, history + [request]);
        assert log == [request] + rest;
        if 1 <= |log| < |keys| - i {
          ReplyAfterFirst(server, history, request, rest, |log| - 1);
        }
      }
    }
  }

  /**
   * The per-case loop sends one result per key, in key order, and stops right after the first
   * reply that says the run is already completed: every earlier reply (success, an invalid
   * case id, any other error) lets it go on, and it leaves keys out only because of such a reply.
   */
  lemma PushLogStopsAtClosedRun(runId: int, cases: Cases, keys: seq<nat>, server: Server, history: seq<Request>)
    requires forall k :: k in keys ==> k in cases
    ensures var log := PushLog(runId, cases, keys, server, history);
      && |log| <= |keys|
      && (keys != [] ==> |log| >= 1)
      && (forall j :: 0 <= j < |log| ==> log[j] == CaseRequest(runId, keys[j], cases[keys[j]]))
      && (forall j :: 0 <= j < |log| - 1 ==> !StopsPush(ReplyAt(server, history, log, j)))
      && (1 <= |log| < |keys| ==> StopsPush(ReplyAt(server, history, log, |log| - 1)))
  {
    PushFromRequests(runId, cases, keys, 0, server, history);
    PushFromContinues(runId, cases, keys, 0, server, history);
    PushFromStopped(runId, cases, keys, 0, server, history);
  }

  /** When no reply says the run is completed, every key gets its result sent. */
  lemma PushLogSendsAllUnlessClosed(runId: int, cases: Cases, keys: seq<nat>, server: Server, history: seq<Request>)
    requires forall k :: k in keys ==> k in cases
    requires var log := PushLog(runId, cases, keys, server, history);
      forall j :: 0 <= j < |log| ==> !StopsPush(ReplyAt(server, history, log, j))
    ensures |PushLog(runId, cases, keys, server, history)| == |keys|
  {
    PushFromRequests(runId, cases, keys, 0, server, history);
    PushFromStopped(runId, cases, keys, 0, server, history);
  }

  // ---------------------------------------------------------------------------------------
  // The client
  // ---------------------------------------------------------------------------------------

  class TestRailApis {
    const domain: string
    const projectId: int
    const suiteId: int
    const includeAll: bool
    var runName: string
    var runId: int
    /** Every request sent to the service so far, in order. */
    var sent: seq<Request>

    /** The constructor once `_validate` has passed for every required field. */
    constructor (config: RawConfig)
      requires ValidateConfig(Some(config)).Pass?
      ensures domain == config.domain.value + "/index.php?"
      ensures projectId == config.projectId.value
      ensures suiteId == NumberOrZero(config.suiteId)
      ensures runName == TextOrEmpty(config.runName)
      ensures runId == NumberOrZero(config.runId)
      ensures includeAll == IncludeAllOrTrue(config.includeAll)
      ensures sent == []
    {
      domain := config.domain.value + "/index.php?";
      projectId := config.projectId.value;
      suiteId := if config.suiteId.Some? && config.suiteId.value != 0 then config.suiteId.value else 0;
      runName := if config.runName.Some? && config.runName.value != "" then config.runName.value else "";
      runId := if config.runId.Some? && config.runId.value != 0 then config.runId.value else 0;
      includeAll := if config.includeAll == Some(false) then false else true;
      sent := [];
    }

    /** One HTTP call: the service answers given the history, and the request joins the history. */
    method Send(request: Request, server: Server) returns (response: Response)
      modifies this`sent
      ensures response == server(old(sent), request)
      ensures sent == old(sent) + [request]
    {
      response := server(sent, request);
      sent := sent + [request];
    }

    /** What createNewTestRun would do now. */
    function Creation(server: Server, now: string): RunCreation
      reads this
    {
      CreateRunExchange(projectId, suiteId, includeAll, runName, now, server, sent)
    }

    /** createTestRunNameFromSuite: the suite's name and the time, or the failure of the suite fetch. */
    method CreateTestRunNameFromSuite(server: Server, now: string) returns (r: Result<string, string>)
      modifies this`sent
      ensures var response := server(old(sent), GetSuite(suiteId));
        && sent == old(sent) + [GetSuite(suiteId)]
        && r == if response.Ok? then Success(response.name + " | " + now) else Failure(response.message)
    {
      var response := Send(GetSuite(suiteId), server);
      if response.Error? {
        return Failure(response.message);
      }
      r := Success(response.name + " | " + now);
    }

    /** createNewTestRun: names the run if it has no name yet, then posts `add_run`. */
    method CreateNewTestRun(server: Server, now: string) returns (r: Result<int, string>)
      modifies this`runName, this`sent
      ensures var c := old(Creation(server, now));
        r == c.result && runName == c.runName && sent == old(sent) + c.requests
    {
      if runName == "" {
        if suiteId == 0 {
          runName := AutomationRunPrefix + now;
        } else {
          var named := CreateTestRunNameFromSuite(server, now);
          if named.Failure? {
            return Failure(named.error);
          }
          runName := named.value;
        }
      }
      var payload := RunPayload(runName, includeAll, if suiteId != 0 then Some(suiteId) else None);
      var response := Send(AddRun(projectId, payload), server);
      r := IdOf(response);
    }

    /**
     * setupTestRun: a configured run id is kept and nothing is sent; with run id 0 a run is
     * created and its id becomes the client's run id.
     */
    method SetupTestRun(server: Server, now: string) returns (r: Result<int, string>)
      modifies this`runName, this`runId, this`sent
      ensures old(runId) != 0 ==>
        r == Success(old(runId)) && runId == old(runId) && runName == old(runName) && sent == old(sent)
      ensures old(runId) == 0 ==> var c := old(Creation(server, now));
        && r == c.result && runName == c.runName && sent == old(sent) + c.requests
        && runId == (if c.result.Success? then c.result.value else 0)
    {
      if runId == 0 {
        var created := CreateNewTestRun(server, now);
        if created.Failure? {
          return Failure(created.error);
        }
        runId := created.value;
      }
      r := Success(runId);
    }

    /** updateTestResultsToRun: posts the bulk payload; a failure is logged and swallowed. */
    method UpdateTestResultsToRun(payload: Results, server: Server)
      modifies this`sent
      ensures sent == old(sent) + [AddResultsForCases(runId, payload)]
    {
      var _ := Send(AddResultsForCases(runId, payload), server);
    }

    /** updateCaseResultToRun: posts one case's result. */
    method UpdateCaseResultToRun(caseId: nat, payload: CasePayload, server: Server) returns (response: Response)
      modifies this`sent
      ensures response == server(old(sent), AddResultForCase(runId, caseId, payload))
      ensures sent == old(sent) + [AddResultForCase(runId, caseId, payload)]
    {
      response := Send(AddResultForCase(runId, caseId, payload), server);
    }

    /**
     * updateCaseResultsIndividuallyToRun: posts each case's result in key order; an error is
     * logged, and only a "run already completed" error ends the loop.
     */
    method UpdateCaseResultsIndividuallyToRun(cases: Cases, server: Server)
      modifies this`sent
      ensures sent == old(sent) + CaseResultsLog(runId, cases, server, old(sent))
    {
      var caseIds := ObjectKeys(cases.Keys);
      assert forall k :: k in caseIds ==> k in cases;
      for i := 0 to |caseIds|
        invariant sent + PushFrom(runId, cases, caseIds, i, server, sent)
               == old(sent) + PushFrom(runId, cases, caseIds, 0, server, old(sent))
      {
        var caseId := caseIds[i];
        var caseResult := cases[caseId];
        var payload := CasePayload(if caseResult.passed then 1 else 5, caseResult.comment, 9);
        assert payload == CasePayloadFor(caseResult);
        ghost var before := sent;
        var response := UpdateCaseResultToRun(caseId, payload, server);
        PushAdvance(runId, cases, caseIds, i, server, before);
        if response.Error? {
          var errorMsg := response.message;
          if Contains(errorMsg, InvalidCaseError) {
            // logged: the case is not part of the run
          } else if Contains(errorMsg, ClosedRunError) {
            return;
          }
        }
      }
    }

    /** addTestCasesToRun: declares the run's cases; a failure is logged and swallowed. */
    method AddTestCasesToRun(caseIds: seq<nat>, server: Server)
      modifies this`sent
      ensures sent == old(sent) + [UpdateRun(runId, AttachPayload(false, caseIds))]
    {
      var _ := Send(UpdateRun(runId, AttachPayload(false, caseIds)), server);
    }
  }

  /**
   * `new testRailApis(config)`: throws the first failing `_validate` check's message, or
   * builds the client from the configuration and its defaults.
   */
  method CreateTestRailApis(config: Option<RawConfig>) returns (r: Result<TestRailApis, string>)
    ensures r.Failure? <==> ValidateConfig(config).Fail?
    ensures r.Failure? ==> r.error == ValidateConfig(config).error
    ensures r.Success? ==> var api := r.value;
      && fresh(api) && api.sent == []
      && api.domain == config.value.domain.value + "/index.php?"
      && api.projectId == config.value.projectId.value
      && api.suiteId == NumberOrZero(config.value.suiteId)
      && api.runName == TextOrEmpty(config.value.runName)
      && api.runId == NumberOrZero(config.value.runId)
      && api.includeAll == IncludeAllOrTrue(config.value.includeAll)
  {
    var check := ValidateConfig(config);
    if check.Fail? {
      return Failure(check.error);
    }
    var api := new TestRailApis(config.value);
    r := Success(api);
  }
}
