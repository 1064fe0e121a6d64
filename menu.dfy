/**
 * The tool menu: which tool a web-app payload selects (index.js:47-80) and
 * which system prompt each tool uses (index.js:104-121).
 */
module Menu {
  import opened Wrappers

  /** The four tools a user can wait for. */
  datatype ToolKind = MarketAnalysis | BusinessIdea | BusinessModel | Cases

  /** The `waitingFor` string the web-app handler stores for a tool
      (index.js:52, 62, 69, 76). */
  function WaitingFor(k: ToolKind): string
  {
    match k
    case MarketAnalysis => "marketAnalysisBtn"
    case BusinessIdea => "businessIdea"
    case BusinessModel => "businessModel"
    case Cases => "cases"
  }

  /**
   * The outcome of `JSON.parse` on the web-app data, as far as the handler
   * looks at it. `NullValue` is the document `null`: reading `.action` of it
   * throws, as a parse error does. Any other value is `Fields`, where
   * `action` and `tool` are Some(s) exactly when that property holds the
   * string s (a missing property, or one holding a non-string, is never
   * `===` to a string literal); a number, string, boolean or array
   * document is `Fields(None, None)`. `action`, `tool` and `waitingFor`
   * are only ever compared for equality with ASCII literals, so they are
   * Dafny strings rather than code-unit `Text`: a value holding a lone
   * surrogate equals none of the literals either way.
   */
  datatype Payload =
    | ParseFailure
    | NullValue
    | Fields(action: Option<string>, tool: Option<string>)

  /** What the dispatch chain decides. */
  datatype Selection =
    | Chosen(kind: ToolKind)
    | NotInMenu      // the final else branch (index.js:78-79)
    | Failed         // the catch block (index.js:81-84)

  /** The if/else chain of index.js:49-80, checked in its order. Only the
      first branch looks at `tool`. */
  function Dispatch(p: Payload): Selection
  {
    match p
    case ParseFailure => Failed
    case NullValue => Failed
    case Fields(action, tool) =>
      if action == Some("openGPT") && tool == Some("marketAnalysisBtn") then Chosen(MarketAnalysis)
      else if action == Some("businessIdea") then Chosen(BusinessIdea)
      else if action == Some("businessModel") then Chosen(BusinessModel)
      else if action == Some("cases") then Chosen(Cases)
      else NotInMenu
  }

  /** The `action` a payload carries to select a tool. */
  function ActionFor(k: ToolKind): string
  {
    if k == MarketAnalysis then "openGPT" else WaitingFor(k)
  }

  /** The payload the tool menu sends for a tool: market analysis goes
      through `openGPT` with a `tool` field, the others name themselves. */
  function MenuPayload(k: ToolKind): Payload
  {
    if k == MarketAnalysis then Fields(Some("openGPT"), Some("marketAnalysisBtn"))
    else Fields(Some(WaitingFor(k)), None)
  }

  /** Every tool's own menu payload selects that tool. */
  lemma DispatchMenuPayload(k: ToolKind)
    ensures Dispatch(MenuPayload(k)) == Chosen(k)
  {
  }

  /** A selected tool was named by the payload's action, and the payload
      is an object: a parse failure or an unknown action never selects. */
  lemma DispatchChosenNamesAction(p: Payload, k: ToolKind)
    requires Dispatch(p) == Chosen(k)
    ensures p.Fields? && p.action == Some(ActionFor(k))
    ensures k == MarketAnalysis ==> p.tool == Some("marketAnalysisBtn")
  {
  }

  /** Business idea, business model and cases ignore `tool` entirely. */
  lemma DispatchIgnoresTool(k: ToolKind, tool: Option<string>)
    requires k != MarketAnalysis
    ensures Dispatch(Fields(Some(ActionFor(k)), tool)) == Chosen(k)
  {
  }

  /** `openGPT` with any other tool, or no tool, is not in the menu. */
  lemma OpenGptNeedsMarketTool(tool: Option<string>)
    requires tool != Some("marketAnalysisBtn")
    ensures Dispatch(Fields(Some("openGPT"), tool)) == NotInMenu
  {
  }

  /** An object payload either selects a tool or is not in the menu; only a
      parse failure or `null` reaches the error path. */
  lemma DispatchFailsOnlyOnParse(p: Payload)
    ensures Dispatch(p) == Failed <==> !p.Fields?
  {
  }

  /** The fixed system prompts; their texts are not part of the model. */
  datatype SystemPrompt =
    | MarketAnalystPrompt    // index.js:108
    | IdeaGeneratorPrompt    // index.js:111
    | BusinessModellerPrompt // index.js:114
    | CaseFinderPrompt       // index.js:117
    | ConsultantPrompt       // index.js:120, the default branch

  /** The `switch (waitingFor)` of index.js:106-121. */
  function PromptFor(waitingFor: string): SystemPrompt
  {
    if waitingFor == "marketAnalysisBtn" then MarketAnalystPrompt
    else if waitingFor == "businessIdea" then IdeaGeneratorPrompt
    else if waitingFor == "businessModel" then BusinessModellerPrompt
    else if waitingFor == "cases" then CaseFinderPrompt
    else ConsultantPrompt
  }

  /** The prompt a tool's stored state leads to. */
  function ToolPrompt(k: ToolKind): SystemPrompt
  {
    PromptFor(WaitingFor(k))
  }

  /** Each tool has a prompt of its own: distinct tools get distinct
      prompts, and none of them gets the generic consultant prompt. */
  lemma ToolPromptsDistinct(k1: ToolKind, k2: ToolKind)
    ensures ToolPrompt(k1) == ToolPrompt(k2) <==> k1 == k2
    ensures ToolPrompt(k1) != ConsultantPrompt
  {
  }

  /** Any value other than the four stored strings falls to the default
      consultant prompt, and only those do. */
  lemma PromptDefault(waitingFor: string)
    ensures PromptFor(waitingFor) == ConsultantPrompt <==>
      forall k: ToolKind :: waitingFor != WaitingFor(k)
  {
    if PromptFor(waitingFor) != ConsultantPrompt {
      var k := if waitingFor == "marketAnalysisBtn" then MarketAnalysis
        else if waitingFor == "businessIdea" then BusinessIdea
        else if waitingFor == "businessModel" then BusinessModel
        else Cases;
      assert waitingFor == WaitingFor(k);
    } else {
      forall k: ToolKind ensures waitingFor != WaitingFor(k) {
        assert PromptFor(WaitingFor(k)) != ConsultantPrompt;
      }
    }
  }
}
