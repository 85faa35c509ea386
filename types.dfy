/** The entities of the chat application: messages, grounding sources,
    analysis metrics and chat sessions. Optional fields of the records are
    `Option`s; numbers are unbounded integers; ids and timestamps are opaque
    values supplied by the caller. */
module Types {

  datatype Option<+T> = None | Some(value: T)

  /** Identifiers are uuid strings in the application; only equality is used. */
  type Id = string

  datatype MessageRole = User | Model | System

  datatype GeminiModel = Flash | Pro

  datatype GroundingSource = GroundingSource(title: string, url: string, snippet: Option<string>)

  /** Every field may be absent: absence means "not computed for this message". */
  datatype AnalysisMetrics = AnalysisMetrics(
    agreementScore: Option<int>,
    confidenceScore: Option<int>,
    sourcesAnalyzed: Option<int>,
    biasIndicators: Option<seq<string>>)

  datatype Message = Message(
    id: Id,
    role: MessageRole,
    content: string,
    timestamp: int,
    isLoading: Option<bool>,
    groundingSources: Option<seq<GroundingSource>>,
    metrics: Option<AnalysisMetrics>)

  datatype ChatSession = ChatSession(
    id: Id,
    title: string,
    model: GeminiModel,
    messages: seq<Message>,
    createdAt: int,
    updatedAt: int)
}
