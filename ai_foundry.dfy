/** The answer composer of the catalog (Services/AIFoundryService): its
    settings, and the chat request GetChatCompletionsAsync sends, a single
    system message that embeds a numbered context built from the search
    hits and the user's query. The chat provider is a function that may
    fail. */
module AIFoundry {
  import opened Common
  import opened Models

  const ProjectUrlSetting := "AI_FOUNDRY_PROJECT_URL"
  const EmbeddingDeploymentSetting := "EMBEDDING_DEPLOYMENT_NAME"
  const ChatDeploymentSetting := "CHAT_DEPLOYMENT_NAME"

  datatype AIFoundryService = AIFoundryService(projectUrl: string, embeddingDeploymentName: string, chatDeploymentName: string)

  /** configuration[name] ?? throw new ArgumentNullException(...) */
  function Required(configuration: Config, name: string): Result<string>
  {
    if name in configuration then Ok(configuration[name]) else Err(MissingSetting(name))
  }

  /** The constructor: the three settings, read in order; the first missing
      one is the error. An empty value is accepted. */
  function NewAIFoundryService(configuration: Config): (r: Result<AIFoundryService>)
    ensures r.Ok? <==>
              ProjectUrlSetting in configuration && EmbeddingDeploymentSetting in configuration && ChatDeploymentSetting in configuration
    ensures r.Ok? ==>
              r.value.projectUrl == configuration[ProjectUrlSetting] &&
              r.value.embeddingDeploymentName == configuration[EmbeddingDeploymentSetting] &&
              r.value.chatDeploymentName == configuration[ChatDeploymentSetting]
    ensures r.Err? ==>
              r.error == MissingSetting(
                if ProjectUrlSetting !in configuration then ProjectUrlSetting
                else if EmbeddingDeploymentSetting !in configuration then EmbeddingDeploymentSetting
                else ChatDeploymentSetting)
  {
    var projectUrl :- Required(configuration, ProjectUrlSetting);
    var embeddingDeploymentName :- Required(configuration, EmbeddingDeploymentSetting);
    var chatDeploymentName :- Required(configuration, ChatDeploymentSetting);
    Ok(AIFoundryService(projectUrl, embeddingDeploymentName, chatDeploymentName))
  }

  // ---------------------------------------------------------------------------
  // The context

  /** The context line of hit i (counted from 0): "{i + 1}. {Title} : {Description}". */
  function ContextLine(i: nat, hit: ProductSearchResult): string
  {
    Decimal(i + 1) + ". " + hit.title + " : " + hit.description
  }

  /** rag.Select((s, i) => ...) */
  function ContextLines(rag: seq<ProductSearchResult>): seq<string>
  {
    seq(|rag|, i requires 0 <= i < |rag| => ContextLine(i, rag[i]))
  }

  /** string.Join("\n", ...) over the context lines. */
  function Context(rag: seq<ProductSearchResult>): string
  {
    Join("\n", ContextLines(rag))
  }

  predicate OneLine(s: string) { '\n' !in s }

  lemma ContextLineIsOneLine(i: nat, hit: ProductSearchResult)
    requires OneLine(hit.title) && OneLine(hit.description)
    ensures OneLine(ContextLine(i, hit))
  {
  }

  /** Cutting the context at its line breaks gives back exactly one line
      per hit, in hit order, numbered from 1 (when the hits themselves hold
      no line break): one line per hit and no trailing separator. */
  lemma ContextLayout(rag: seq<ProductSearchResult>)
    requires |rag| >= 1
    requires forall i :: 0 <= i < |rag| ==> OneLine(rag[i].title) && OneLine(rag[i].description)
    ensures |Split(Context(rag), '\n')| == |rag|
    ensures forall i :: 0 <= i < |rag| ==>
              Split(Context(rag), '\n')[i] == Decimal(i + 1) + ". " + rag[i].title + " : " + rag[i].description
  {
    var lines := ContextLines(rag);
    forall i | 0 <= i < |lines|
      ensures '\n' !in lines[i]
    {
      ContextLineIsOneLine(i, rag[i]);
    }
    SplitJoin(lines, '\n');
  }

  /** The numbers of different lines differ. */
  lemma NumberingDistinct(i: nat, j: nat)
    requires Decimal(i + 1) == Decimal(j + 1)
    ensures i == j
  {
    DecimalInjective(i + 1, j + 1);
  }

  // ---------------------------------------------------------------------------
  // The prompt and the request

  const Instruction := "Answer the question based on the context above only. Provide the product name associated with the answer as well. If the"
  const Fallback := "information to answer the question is not present in the given context then reply \"I don't know\"."

  const ContextLabel := "    context : "
  const BeforeFallback := "\n    " + Instruction + "\n    "
  const BeforeQuery := "\n    Query: "

  /** The system prompt, as the raw string literal reads once its closing
      delimiter's indentation is removed: four lines, each indented by four
      spaces, with no final line break. */
  function Prompt(context: string, query: string): string
  {
    ContextLabel + context + BeforeFallback + Fallback + BeforeQuery + query
  }

  datatype Role = System | User | Assistant
  datatype ChatMessage = ChatMessage(role: Role, content: string)

  function Messages(query: string, rag: seq<ProductSearchResult>): seq<ChatMessage>
  {
    [ChatMessage(System, Prompt(Context(rag), query))]
  }

  /** GetChatCompletionsAsync: whatever the provider answers to the one
      request. There is no special case for an empty hit list. */
  function GetChatCompletions(query: string, rag: seq<ProductSearchResult>, complete: seq<ChatMessage> -> Result<string>): Result<string>
  {
    complete(Messages(query, rag))
  }

  predicate OccursAt(s: string, part: string, at: nat)
  {
    at + |part| <= |s| && s[at..at + |part|] == part
  }

  lemma OccursInMiddle(a: string, part: string, b: string)
    ensures OccursAt(a + part + b, part, |a|)
  {
    assert (a + part + b)[|a|..|a| + |part|] == part;
  }

  /** The request is a single system message. Its text holds the context,
      then the "I don't know" fallback instruction, then the query, which
      ends it; with no hits the context is empty and the request is still
      made. */
  lemma ChatRequest(query: string, rag: seq<ProductSearchResult>)
    ensures |Messages(query, rag)| == 1 && Messages(query, rag)[0].role == System
    ensures var text := Messages(query, rag)[0].content;
            var c := Context(rag);
            var f := |ContextLabel| + |c| + |BeforeFallback|;
            var q := f + |Fallback| + |BeforeQuery|;
            && OccursAt(text, ContextLabel, 0)
            && OccursAt(text, c, |ContextLabel|)
            && OccursAt(text, Fallback, f)
            && OccursAt(text, query, q)
            && q + |query| == |text|
    ensures rag == [] ==> Messages(query, rag) == [ChatMessage(System, Prompt("", query))]
  {
    PromptLayout(ContextLabel, Context(rag), BeforeFallback, Fallback, BeforeQuery, query);
  }

  /** Where each part of a six-part text starts. */
  lemma PromptLayout(a: string, c: string, b: string, f: string, d: string, q: string)
    ensures var text := a + c + b + f + d + q;
            && OccursAt(text, a, 0)
            && OccursAt(text, c, |a|)
            && OccursAt(text, f, |a| + |c| + |b|)
            && OccursAt(text, q, |a| + |c| + |b| + |f| + |d|)
            && |a| + |c| + |b| + |f| + |d| + |q| == |text|
  {
    var text := a + c + b + f + d + q;
    assert text == [] + a + (c + b + f + d + q);
    OccursInMiddle([], a, c + b + f + d + q);
    assert text == a + c + (b + f + d + q);
    OccursInMiddle(a, c, b + f + d + q);
    assert text == (a + c + b) + f + (d + q);
    OccursInMiddle(a + c + b, f, d + q);
    assert text == (a + c + b + f + d) + q + [];
    OccursInMiddle(a + c + b + f + d, q, []);
  }
}
