/** The troubleshooting workflow: gather a service's record, metrics and
    logs from the platform; if that fails, report it and stop; otherwise have
    the text generator analyse the issue against similar known issues and
    offer the same three follow-up actions. */
module Diagnose {
  import opened Common
  import opened Seqs
  import opened ServiceModel
  import opened Actions
  import opened VectorStore
  import opened Llm
  import opened Platform

  /** How many log lines are fetched, and how many of them reach the prompt. */
  const LogLines: nat := 50
  const LogTail: nat := 10

  /** The knowledge category and result count of the similar-issue search. */
  const IssueCategory := "common_issues"
  const IssueResults: nat := 2

  datatype Diagnostics = Diagnostics(service: Service, metrics: Metadata, logs: seq<string>)

  /** `_gather_diagnostics`: the service, then its metrics, then its last 50
      log lines; the first failure is returned as the whole result, with no
      partial data. */
  function GatherDiagnostics(client: PlatformClient, token: string, serviceId: string)
    : (r: Result<Diagnostics, string>)
    ensures r.Ok? <==>
      && client.getService(token, serviceId).Ok?
      && client.getServiceMetrics(token, serviceId).Ok?
      && client.getServiceLogs(token, serviceId, LogLines).Ok?
    ensures r.Ok? ==> r.value == Diagnostics(client.getService(token, serviceId).value,
                                             client.getServiceMetrics(token, serviceId).value,
                                             client.getServiceLogs(token, serviceId, LogLines).value)
    ensures client.getService(token, serviceId).Err? ==> r == Err(client.getService(token, serviceId).error)
    ensures client.getService(token, serviceId).Ok? && client.getServiceMetrics(token, serviceId).Err? ==>
      r == Err(client.getServiceMetrics(token, serviceId).error)
  {
    match client.getService(token, serviceId)
    case Err(e) => Err(e)
    case Ok(service) =>
      match client.getServiceMetrics(token, serviceId)
      case Err(e) => Err(e)
      case Ok(metrics) =>
        match client.getServiceLogs(token, serviceId, LogLines)
        case Err(e) => Err(e)
        case Ok(logs) => Ok(Diagnostics(service, metrics, logs))
  }

  /** The analysis prompt: the service's type and status, its metrics, the
      last ten log lines and the contents of the similar issues found. */
  function AnalysisPrompt(d: Diagnostics, message: string, knowledge: seq<KnowledgeItem>): (p: Prompt)
    ensures p.DiagnoseIssue? && |p.recentLogs| <= LogTail
    ensures p.recentLogs == LastN(d.logs, LogTail)
    ensures p.serviceType == d.service.serviceType && p.status == d.service.status
  {
    DiagnoseIssue(message, d.service.serviceType, d.service.status, d.metrics,
                  LastN(d.logs, LogTail), Contents(knowledge))
  }

  datatype Analysis = Analysis(text: string, serviceType: ServiceType)

  /** `_analyze_issue`: a similar-issue search, then one generation; either
      failure propagates. */
  function AnalyzeIssue(d: Diagnostics, message: string, index: IndexSearch, llm: TextGenerator)
    : (r: Result<Analysis, string>)
    ensures Search(index, message, Some(IssueCategory), IssueResults).Err? ==>
      r == Err(Search(index, message, Some(IssueCategory), IssueResults).error)
    ensures r.Ok? ==> Search(index, message, Some(IssueCategory), IssueResults).Ok?
    ensures r.Ok? ==>
      var prompt := AnalysisPrompt(d, message, Search(index, message, Some(IssueCategory), IssueResults).value);
      llm(prompt) == Ok(r.value.text)
    ensures r.Ok? ==> r.value.serviceType == d.service.serviceType
  {
    match Search(index, message, Some(IssueCategory), IssueResults)
    case Err(e) => Err(e)
    case Ok(knowledge) =>
      match llm(AnalysisPrompt(d, message, knowledge))
      case Err(e) => Err(e)
      case Ok(text) => Ok(Analysis(text, d.service.serviceType))
  }

  /** Only the last ten log lines influence the analysis: two gatherings
      whose logs end alike are analysed alike. */
  lemma AnalysisSeesOnlyLogTail(d1: Diagnostics, d2: Diagnostics, message: string,
                                index: IndexSearch, llm: TextGenerator)
    requires d1.service == d2.service && d1.metrics == d2.metrics
    requires LastN(d1.logs, LogTail) == LastN(d2.logs, LogTail)
    ensures AnalyzeIssue(d1, message, index, llm) == AnalyzeIssue(d2, message, index, llm)
  {
  }

  /** The follow-up actions offered after every successful diagnosis. */
  function FollowUpActions(serviceId: string): (actions: seq<Action>)
    ensures |actions| == 3
    ensures ActionType(actions[0]) == "show_logs" && ActionType(actions[1]) == "restart_service"
      && ActionType(actions[2]) == "scale_service"
    ensures forall i :: 0 <= i < 3 ==> actions[i].serviceId == serviceId
  {
    [ShowLogs(serviceId), RestartService(serviceId), ScaleService(serviceId)]
  }

  /** What `execute` returns: a gathering failure as data, or the diagnosis. */
  datatype DiagnoseReply =
    | GatherFailed(message: string)
    | Diagnosed(diagnostics: Diagnostics, analysis: Analysis, actions: seq<Action>)

  function ReplyStatus(r: DiagnoseReply): string
  {
    if r.GatherFailed? then "error" else "success"
  }

  function GatherFailureMessage(error: string): string
  {
    "Failed to gather diagnostics: " + error
  }

  /** `execute`. A gathering failure is reported without analysing anything;
      a failure of the analysis itself propagates to the caller. */
  function Execute(client: PlatformClient, index: IndexSearch, llm: TextGenerator,
                   serviceId: string, message: string, token: string): (r: Result<DiagnoseReply, string>)
    ensures GatherDiagnostics(client, token, serviceId).Err? ==>
      r == Ok(GatherFailed(GatherFailureMessage(GatherDiagnostics(client, token, serviceId).error)))
    ensures r.Ok? && r.value.Diagnosed? ==>
      && GatherDiagnostics(client, token, serviceId) == Ok(r.value.diagnostics)
      && AnalyzeIssue(r.value.diagnostics, message, index, llm) == Ok(r.value.analysis)
      && r.value.actions == FollowUpActions(serviceId)
      && r.value.analysis.serviceType == r.value.diagnostics.service.serviceType
    ensures r.Err? <==>
      GatherDiagnostics(client, token, serviceId).Ok?
      && AnalyzeIssue(GatherDiagnostics(client, token, serviceId).value, message, index, llm).Err?
  {
    match GatherDiagnostics(client, token, serviceId)
    case Err(e) => Ok(GatherFailed(GatherFailureMessage(e)))
    case Ok(d) =>
      match AnalyzeIssue(d, message, index, llm)
      case Err(e) => Err(e)
      case Ok(analysis) => Ok(Diagnosed(d, analysis, FollowUpActions(serviceId)))
  }

  /** On a gathering failure neither the knowledge search nor the text
      generator is consulted: the outcome is the same whatever they do. */
  lemma GatherFailureSkipsAnalysis(client: PlatformClient, index1: IndexSearch, index2: IndexSearch,
                                   llm1: TextGenerator, llm2: TextGenerator,
                                   serviceId: string, message: string, token: string)
    requires GatherDiagnostics(client, token, serviceId).Err?
    ensures Execute(client, index1, llm1, serviceId, message, token)
         == Execute(client, index2, llm2, serviceId, message, token)
    ensures ReplyStatus(Execute(client, index1, llm1, serviceId, message, token).value) == "error"
  {
  }
}
