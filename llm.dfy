/** The text-generation capability. Its behaviour is not modelled: every
    workflow receives it as a function from a structured prompt to either the
    generated text or the text of the exception it raised. */
module Llm {
  import opened Common
  import opened ServiceModel
  import opened ConversationModel

  /** One `role: content` line of the recent-conversation block of a prompt. */
  datatype HistoryLine = HistoryLine(role: MessageRole, content: string)

  /** The variable parts of each prompt template; the fixed instruction text is omitted. */
  datatype Prompt =
    | ClassifyIntent(message: string)
    | ComposeReply(message: string, context: seq<string>, history: seq<HistoryLine>)
    | DiagnoseIssue(message: string, serviceType: ServiceType, status: ServiceStatus,
                    metrics: Metadata, recentLogs: seq<string>, knowledge: seq<string>)

  type TextGenerator = Prompt -> Result<string, string>
}
