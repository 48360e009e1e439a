/**
 * Validation of one credit request and the processing run that appends its status
 * entries (CreditEngineWorker/Services/CreditEngineService.cs).
 */
module CreditEngine {
  import opened Wrappers
  import opened QueueMessages
  import opened Api

  /** The validator's answer (`ErrorResponse`). */
  datatype Verdict = Verdict(isValid: bool, errorMessage: Option<string>, errorMessageCode: Option<string>)

  // Reason codes of the validator.
  const AnalysisRequestNotFound := "ANALYSIS_REQUEST_NOT_FOUND"
  const DocumentRequired := "DOCUMENT_REQUIRED"
  const CreditPolicyPfIdRequired := "CREDIT_POLICY_PF_ID_REQUIRED"
  const CreditPolicyIdRequired := "CREDIT_POLICY_ID_REQUIRED"
  const ValidationError := "VALIDATION_ERROR"

  // Human-readable texts the worker writes.
  const AnalysisRequestNotFoundText := "Pedido de crédito não encontrado"
  const DocumentRequiredText := "Documento é obrigatório"
  const CreditPolicyPfIdRequiredText := "Documento tem 11 digitos porém não foi informado o ID da política de crédito (Pessoa Física)"
  const CreditPolicyIdRequiredText := "Documento tem 14 digitos porém não foi informado o ID da política de crédito (Pessoa Jurídica)"
  const StartedText := "Iniciando processamento da solicitação de crédito"
  const RulesLookupFailedText := "Erro ao buscar regras de crédito para a política de crédito"
  const EngineFailedText := "Erro ao enviar requisição para o credit engine"
  const EngineDoneText := "Motor Processado."

  /** Message of the exception thrown by casting a null `long?` to `long`. */
  const NullableNoValue := "Nullable object must have a value."
  /** Message of the exception thrown by calling a method on a null reference. */
  const NullReference := "Object reference not set to an instance of an object."

  /** The record the validator's one gateway read yields, when the id is present and the read finds a record. */
  function SourceRecord(analysisRequestId: Option<int>, api: ApiService): (record: Option<AnalysisRecord>)
    ensures record.Some? <==> analysisRequestId.Some? && api.getAnalysisRequest(analysisRequestId.value).Found?
    ensures record.Some? ==> record.value == api.getAnalysisRequest(analysisRequestId.value).value
  {
    if analysisRequestId.Some? && api.getAnalysisRequest(analysisRequestId.value).Found?
    then Some(api.getAnalysisRequest(analysisRequestId.value).value)
    else None
  }

  /**
   * The rules a request must meet, stated without their order: the source record
   * exists and has a non-empty document, an 11-character document comes with an
   * individual policy id and a 14-character document with a corporate one.
   */
  predicate Admissible(analysisRequestId: Option<int>, creditPolicyId: Option<int>, creditPolicyPfId: Option<int>, api: ApiService)
  {
    var record := SourceRecord(analysisRequestId, api);
    && record.Some?
    && record.value.document.Some?
    && record.value.document.value != ""
    && (|record.value.document.value| == 11 ==> creditPolicyPfId.Some?)
    && (|record.value.document.value| == 14 ==> creditPolicyId.Some?)
  }

  /**
   * `ValidateCreditRequestAsync`: an ordered chain of checks where the first failure
   * wins. It never throws: a null `AnalysisRequestId` (the cast before the gateway read
   * throws) and a gateway read that throws both give `VALIDATION_ERROR` with the
   * exception's message.
   */
  function ValidateCreditRequest(analysisRequestId: Option<int>, creditPolicyId: Option<int>, creditPolicyPfId: Option<int>, api: ApiService): (v: Verdict)
    ensures v.isValid <==> Admissible(analysisRequestId, creditPolicyId, creditPolicyPfId, api)
    ensures v.isValid ==> analysisRequestId.Some?
    ensures v.isValid <==> v.errorMessageCode.None?
    ensures v.isValid <==> v.errorMessage.None?
    ensures v.errorMessageCode == Some(ValidationError) <==>
              analysisRequestId.None? || api.getAnalysisRequest(analysisRequestId.value).Fault?
    ensures analysisRequestId.None? ==> v.errorMessage == Some(NullableNoValue)
    ensures analysisRequestId.Some? && api.getAnalysisRequest(analysisRequestId.value).Fault? ==>
              v.errorMessage == Some(api.getAnalysisRequest(analysisRequestId.value).message)
    ensures v.errorMessageCode == Some(AnalysisRequestNotFound) <==>
              analysisRequestId.Some? && api.getAnalysisRequest(analysisRequestId.value).NotFound?
    ensures v.errorMessageCode == Some(AnalysisRequestNotFound) ==> v.errorMessage == Some(AnalysisRequestNotFoundText)
    ensures var record := SourceRecord(analysisRequestId, api);
            v.errorMessageCode == Some(DocumentRequired) <==>
              record.Some? && (record.value.document.None? || record.value.document.value == "")
    ensures v.errorMessageCode == Some(DocumentRequired) ==> v.errorMessage == Some(DocumentRequiredText)
    ensures var record := SourceRecord(analysisRequestId, api);
            v.errorMessageCode == Some(CreditPolicyPfIdRequired) <==>
              record.Some? && record.value.document.Some? && |record.value.document.value| == 11 && creditPolicyPfId.None?
    ensures v.errorMessageCode == Some(CreditPolicyPfIdRequired) ==> v.errorMessage == Some(CreditPolicyPfIdRequiredText)
    ensures var record := SourceRecord(analysisRequestId, api);
            v.errorMessageCode == Some(CreditPolicyIdRequired) <==>
              record.Some? && record.value.document.Some? && |record.value.document.value| == 14 && creditPolicyId.None?
    ensures v.errorMessageCode == Some(CreditPolicyIdRequired) ==> v.errorMessage == Some(CreditPolicyIdRequiredText)
  {
    if analysisRequestId.None? then
      Verdict(false, Some(NullableNoValue), Some(ValidationError))
    else
      match api.getAnalysisRequest(analysisRequestId.value)
      case Fault(message) => Verdict(false, Some(message), Some(ValidationError))
      case NotFound => Verdict(false, Some(AnalysisRequestNotFoundText), Some(AnalysisRequestNotFound))
      case Found(record) =>
        if record.document.None? || record.document.value == "" then
          Verdict(false, Some(DocumentRequiredText), Some(DocumentRequired))
        else if |record.document.value| == 11 && creditPolicyPfId.None? then
          Verdict(false, Some(CreditPolicyPfIdRequiredText), Some(CreditPolicyPfIdRequired))
        else if |record.document.value| == 14 && creditPolicyId.None? then
          Verdict(false, Some(CreditPolicyIdRequiredText), Some(CreditPolicyIdRequired))
        else
          Verdict(true, None, None)
  }

  /** The validator's verdict on a request. */
  function VerdictOf(r: RequestView, api: ApiService): (v: Verdict)
    ensures v.isValid <==> Admissible(r.analysisRequestId, r.creditPolicyId, r.creditPolicyPfId, api)
  {
    ValidateCreditRequest(r.analysisRequestId, r.creditPolicyId, r.creditPolicyPfId, api)
  }

  /** The gateway calls the validator makes: one read, unless the id is null. */
  function ValidatorCalls(analysisRequestId: Option<int>): (calls: seq<ApiCall>)
    ensures |calls| <= 1
    ensures calls == [] <==> analysisRequestId.None?
    ensures forall c | c in calls :: c.GetAnalysisRequest? && Some(c.analysisRequestId) == analysisRequestId
  {
    if analysisRequestId.Some? then [GetAnalysisRequest(analysisRequestId.value)] else []
  }

  /** The decision-engine body built from the request and the rules record. */
  function BuildSubmission(analysisRequestId: int, r: RequestView, rules: PolicyRules): (s: Submission)
    ensures s.requestId == [analysisRequestId]
    ensures rules.reportId.Some? ==> s.searchedItem == rules.reportId.value
    ensures rules.reportId.None? ==> s.searchedItem == 0
    ensures s.creditPolicyId == r.creditPolicyId && s.creditPolicyPfId == r.creditPolicyPfId
    ensures s.useOnlyInternalData == Some(rules.useOnInternalData)
    ensures s.username.None? && s.password.None? && s.features.None?
  {
    Submission(
      [analysisRequestId],
      if rules.reportId.Some? then rules.reportId.value else 0,
      r.creditPolicyId,
      r.creditPolicyPfId,
      None,
      None,
      Some(rules.useOnInternalData),
      None)
  }

  /**
   * The paths on which a processing run ends with `Completed`: the request is valid,
   * has a rule id whose rules are found, has its source id, and the decision engine
   * answers with a record.
   */
  predicate Completes(r: RequestView, api: ApiService)
  {
    && VerdictOf(r, api).isValid
    && r.creditPolicyRuleId.Some?
    && api.getCreditPolicyRules(r.creditPolicyRuleId.value).Found?
    && r.analysisRequestId.Some?
    && api.sendToCreditEngine(BuildSubmission(r.analysisRequestId.value, r, api.getCreditPolicyRules(r.creditPolicyRuleId.value).value)).Found?
  }

  /** The terminal entry of a processing run (its text and status id) and the gateway calls the run makes, in order. */
  datatype Run = Run(message: Option<string>, taskStatusId: int, calls: seq<ApiCall>)

  /** The decisions of `ProcessCreditRequestAsync` after its first entry, for a request whose trail exists. */
  function Pipeline(r: RequestView, api: ApiService): (run: Run)
    ensures run.taskStatusId == Failed || run.taskStatusId == Completed
    ensures run.taskStatusId == Completed <==> Completes(r, api)
    ensures run.taskStatusId == Completed ==> run.message == Some(EngineDoneText)
    // A failed validation ends the run with the validator's text and nothing but the validator's read.
    ensures !VerdictOf(r, api).isValid ==> run == Run(VerdictOf(r, api).errorMessage, Failed, ValidatorCalls(r.analysisRequestId))
    // A null rule id throws at the cast; the handler records the exception's text.
    ensures VerdictOf(r, api).isValid && r.creditPolicyRuleId.None? ==>
              run == Run(Some(NullableNoValue), Failed, ValidatorCalls(r.analysisRequestId))
    ensures VerdictOf(r, api).isValid && r.creditPolicyRuleId.Some? && api.getCreditPolicyRules(r.creditPolicyRuleId.value).NotFound? ==>
              run.taskStatusId == Failed && run.message == Some(RulesLookupFailedText) && |run.calls| == 2
    ensures VerdictOf(r, api).isValid && r.creditPolicyRuleId.Some? && api.getCreditPolicyRules(r.creditPolicyRuleId.value).Fault? ==>
              run.taskStatusId == Failed && run.message == Some(api.getCreditPolicyRules(r.creditPolicyRuleId.value).message) && |run.calls| == 2
    // The calls, in order: the source-record read, the rules read, the submission.
    ensures |run.calls| <= 3
    ensures |run.calls| >= 1 ==> r.analysisRequestId.Some? && run.calls[0] == GetAnalysisRequest(r.analysisRequestId.value)
    ensures |run.calls| >= 2 ==> r.creditPolicyRuleId.Some? && run.calls[1] == GetCreditPolicyRules(r.creditPolicyRuleId.value)
    ensures |run.calls| >= 3 <==> VerdictOf(r, api).isValid && r.creditPolicyRuleId.Some? && api.getCreditPolicyRules(r.creditPolicyRuleId.value).Found?
    ensures |run.calls| >= 3 ==>
              var rules := api.getCreditPolicyRules(r.creditPolicyRuleId.value).value;
              && run.calls[2].SendToCreditEngine?
              && run.calls[2].submission.requestId == [r.analysisRequestId.value]
              && run.calls[2].submission.searchedItem == (if rules.reportId.Some? then rules.reportId.value else 0)
              && run.calls[2].submission.creditPolicyId == r.creditPolicyId
              && run.calls[2].submission.creditPolicyPfId == r.creditPolicyPfId
              && run.calls[2].submission.useOnlyInternalData == Some(rules.useOnInternalData)
              && run.calls[2].submission.username.None? && run.calls[2].submission.password.None?
              && run.calls[2].submission.features.None?
    ensures |run.calls| >= 3 && run.taskStatusId == Failed ==>
              var reply := api.sendToCreditEngine(run.calls[2].submission);
              run.message == if reply.Fault? then Some(reply.message) else Some(EngineFailedText)
  {
    var verdict := VerdictOf(r, api);
    var validated := ValidatorCalls(r.analysisRequestId);
    if !verdict.isValid then
      Run(verdict.errorMessage, Failed, validated)
    else if r.creditPolicyRuleId.None? then
      Run(Some(NullableNoValue), Failed, validated)
    else
      var calls := validated + [GetCreditPolicyRules(r.creditPolicyRuleId.value)];
      match api.getCreditPolicyRules(r.creditPolicyRuleId.value)
      case Fault(message) => Run(Some(message), Failed, calls)
      case NotFound => Run(Some(RulesLookupFailedText), Failed, calls)
      case Found(rules) =>
        var submission := BuildSubmission(r.analysisRequestId.value, r, rules);
        var submitted := calls + [SendToCreditEngine(submission)];
        match api.sendToCreditEngine(submission)
        case Fault(message) => Run(Some(message), Failed, submitted)
        case NotFound => Run(Some(EngineFailedText), Failed, submitted)
        case Found(_) => Run(Some(EngineDoneText), Completed, submitted)
  }

  /**
   * The request after `ProcessCreditRequestAsync`. With a status list, exactly two
   * entries are appended, the Started entry first and the run's terminal entry last,
   * both with the request id as sender; the finish time is set to `now` exactly when
   * the run completes; nothing else changes. With a null list the first `Add` throws,
   * the handler's own `Add` throws again, and the exception escapes.
   */
  function ProcessOutcome(r: RequestView, api: ApiService, now: Instant): (o: Result<RequestView, string>)
    ensures o.Failure? <==> r.creditEngineStatus.None?
    ensures o.Failure? ==> o.error == NullReference
    ensures o.Success? ==>
              var before := r.creditEngineStatus.value;
              var after := o.value.creditEngineStatus;
              && after.Some? && |after.value| == |before| + 2
              && after.value[..|before|] == before
              && after.value[|before|] == NewStatusEntry(Some(StartedText), Started, r.id, now)
              && after.value[|before| + 1] == NewStatusEntry(Pipeline(r, api).message, Pipeline(r, api).taskStatusId, r.id, now)
              && (forall i | |before| <= i < |after.value| :: after.value[i].taskCreditEngineSenderId == r.id && after.value[i].status)
              && o.value.taskFinishedAt == (if Completes(r, api) then Some(now) else r.taskFinishedAt)
              && o.value.(creditEngineStatus := r.creditEngineStatus, taskFinishedAt := r.taskFinishedAt) == r
  {
    if r.creditEngineStatus.None? then
      Failure(NullReference)
    else
      var run := Pipeline(r, api);
      var trail := r.creditEngineStatus.value
        + [NewStatusEntry(Some(StartedText), Started, r.id, now)]
        + [NewStatusEntry(run.message, run.taskStatusId, r.id, now)];
      Success(r.(creditEngineStatus := Some(trail),
                 taskFinishedAt := if run.taskStatusId == Completed then Some(now) else r.taskFinishedAt))
  }

  /** The gateway calls `ProcessCreditRequestAsync` makes: none when it throws at the first `Add`. */
  function CallsMade(r: RequestView, api: ApiService): (calls: seq<ApiCall>)
    ensures r.creditEngineStatus.None? ==> calls == []
    ensures forall c | c in calls :: !c.UpdateCreditEngineStatus?
  {
    if r.creditEngineStatus.None? then [] else Pipeline(r, api).calls
  }

  /**
   * Each run adds exactly one Started entry and exactly one terminal (Failed or
   * Completed) entry to the counts of the trail.
   */
  lemma ProcessAddsOneStartedOneTerminal(r: RequestView, api: ApiService, now: Instant)
    requires r.creditEngineStatus.Some?
    ensures var before := r.creditEngineStatus.value;
            var after := ProcessOutcome(r, api, now).value.creditEngineStatus.value;
            && CountStatus(after, Started) == CountStatus(before, Started) + 1
            && CountStatus(after, Failed) + CountStatus(after, Completed) == CountStatus(before, Failed) + CountStatus(before, Completed) + 1
  {
  }

  /**
   * `ProcessCreditRequestAsync`: appends to the request's trail in place with early
   * returns and hands back the same object; a thrown exception is caught and recorded
   * as a Failed entry, except when the trail itself is null.
   */
  method ProcessCreditRequest(request: QueueMessage, api: ApiService, now: Instant) returns (result: Result<QueueMessage, string>, calls: seq<ApiCall>)
    modifies request
    ensures var o := ProcessOutcome(old(request.View()), api, now);
            && (o.Success? ==> result == Success(request) && request.View() == o.value)
            && (o.Failure? ==> result == Failure(o.error) && request.View() == old(request.View()))
    ensures calls == CallsMade(old(request.View()), api)
  {
    ghost var r := request.View();
    calls := [];
    var ok := request.AddStatus(NewStatusEntry(Some(StartedText), Started, request.id, now));
    if !ok {
      // The handler's `Add` meets the same null list and throws out of the method.
      result := Failure(NullReference);
      return;
    }
    result := Success(request);
    var verdict := ValidateCreditRequest(request.analysisRequestId, request.creditPolicyId, request.creditPolicyPfId, api);
    calls := ValidatorCalls(request.analysisRequestId);
    if !verdict.isValid {
      ok := request.AddStatus(NewStatusEntry(verdict.errorMessage, Failed, request.id, now));
      return;
    }
    if request.creditPolicyRuleId.None? {
      // The cast of the null rule id throws; the handler records the exception's text.
      ok := request.AddStatus(NewStatusEntry(Some(NullableNoValue), Failed, request.id, now));
      return;
    }
    var ruleId := request.creditPolicyRuleId.value;
    calls := calls + [GetCreditPolicyRules(ruleId)];
    var rules: PolicyRules;
    match api.getCreditPolicyRules(ruleId) {
      case Fault(message) =>
        ok := request.AddStatus(NewStatusEntry(Some(message), Failed, request.id, now));
        return;
      case NotFound =>
        ok := request.AddStatus(NewStatusEntry(Some(RulesLookupFailedText), Failed, request.id, now));
        return;
      case Found(found) =>
        rules := found;
    }
    // A valid verdict implies the source id is present, so the null check that
    // follows the rules lookup in the source never fires.
    assert request.analysisRequestId.Some?;
    var submission := BuildSubmission(request.analysisRequestId.value, request.View(), rules);
    calls := calls + [SendToCreditEngine(submission)];
    match api.sendToCreditEngine(submission) {
      case Fault(message) =>
        ok := request.AddStatus(NewStatusEntry(Some(message), Failed, request.id, now));
      case NotFound =>
        ok := request.AddStatus(NewStatusEntry(Some(EngineFailedText), Failed, request.id, now));
      case Found(_) =>
        ok := request.AddStatus(NewStatusEntry(Some(EngineDoneText), Completed, request.id, now));
        request.taskFinishedAt := Some(now);
    }
  }

  /**
   * An 11-digit document without an individual policy id fails validation with
   * `CREDIT_POLICY_PF_ID_REQUIRED`, and the run never reaches the decision engine.
   */
  lemma IndividualWithoutPolicyIsRejected(r: RequestView, api: ApiService)
    requires r.analysisRequestId == Some(10) && r.creditPolicyRuleId == Some(5) && r.creditPolicyPfId.None?
    requires api.getAnalysisRequest(10) == Found(AnalysisRecord(10, Some("12345678901")))
    ensures VerdictOf(r, api).errorMessageCode == Some(CreditPolicyPfIdRequired)
    ensures Pipeline(r, api) == Run(Some(CreditPolicyPfIdRequiredText), Failed, [GetAnalysisRequest(10)])
  {
  }

  /**
   * A 14-digit document with a corporate policy id, rules with report 99 and an engine
   * that answers: the run completes, sets the finish time and submits report 99.
   */
  lemma CorporateRequestCompletes(r: RequestView, api: ApiService, now: Instant)
    requires r.analysisRequestId == Some(10) && r.creditPolicyRuleId == Some(5) && r.creditPolicyId == Some(7)
    requires r.creditEngineStatus.Some?
    requires api.getAnalysisRequest(10) == Found(AnalysisRecord(10, Some("12345678901234")))
    requires api.getCreditPolicyRules(5) == Found(PolicyRules(5, false, Some(99), true))
    requires forall s :: api.sendToCreditEngine(s).Found?
    ensures Pipeline(r, api).taskStatusId == Completed
    ensures ProcessOutcome(r, api, now).value.taskFinishedAt == Some(now)
    ensures Pipeline(r, api).calls[2].submission.searchedItem == 99
  {
  }
}
