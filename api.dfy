/**
 * The REST gateway the worker calls (CreditEngineWorker/Services/IApiService.cs), as
 * four functions supplied from outside, and the records they exchange.
 */
module Api {
  import opened Wrappers
  import opened QueueMessages

  /**
   * What one gateway call gives back. A transport error, a timeout or a non-2xx status
   * becomes an empty body, and an empty body or a JSON `null` becomes a null result:
   * `NotFound`. A non-empty 2xx body that does not deserialize makes the call throw:
   * `Fault`, with the exception's message.
   */
  datatype Reply<+T> = Found(value: T) | NotFound | Fault(message: string)

  /** The analysis request of the originating system (`ResponseAnalysisRequest`), reduced to what the worker reads. */
  datatype AnalysisRecord = AnalysisRecord(id: int, document: Option<string>)

  /** Credit-policy rules (`CreditPolicyRules`), reduced to what the worker reads. */
  datatype PolicyRules = PolicyRules(id: int, useOnInternalData: bool, reportId: Option<int>, isActive: bool)

  datatype Feature = Feature(id: Option<int>, name: Option<string>)

  /** The body posted to the decision engine (`SendToCreditEngine`). */
  datatype Submission = Submission(
    requestId: seq<int>,
    searchedItem: int,
    creditPolicyId: Option<int>,
    creditPolicyPfId: Option<int>,
    username: Option<string>,
    password: Option<string>,
    useOnlyInternalData: Option<bool>,
    features: Option<seq<Feature>>)

  /** The four gateway operations (`IApiService`). */
  datatype ApiService = ApiService(
    getAnalysisRequest: int -> Reply<AnalysisRecord>,
    updateCreditEngineStatus: RequestView -> Reply<RequestView>,
    sendToCreditEngine: Submission -> Reply<AnalysisRecord>,
    getCreditPolicyRules: int -> Reply<PolicyRules>)

  /** One gateway call with its argument, as recorded by the callers. */
  datatype ApiCall =
    | GetAnalysisRequest(analysisRequestId: int)
    | UpdateCreditEngineStatus(request: RequestView)
    | SendToCreditEngine(submission: Submission)
    | GetCreditPolicyRules(creditPolicyId: int)
}
