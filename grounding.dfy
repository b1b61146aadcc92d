/**
 * The AI capability both summarizers call, seen from outside: the request sent to
 * `ai.models.generateContent`, what it answers, the prompt and the model default, and
 * the test that selects the grounding chunks worth citing.
 */
module Grounding {
  import opened Wrappers
  import opened Text
  import opened Types

  /** A grounding chunk of the model's answer: `{ web?: { uri?, title? } }`. */
  datatype GroundingChunk = GroundingChunk(web: Option<ChunkWeb>)
  datatype ChunkWeb = ChunkWeb(uri: Option<string>, title: Option<string>)

  /** `generateContent({ model, contents, config: { tools: [{ googleSearch: {} }] } })`. */
  datatype AiRequest = AiRequest(model: string, contents: string, googleSearch: bool)

  /**
   * A response: its `text` and the `groundingChunks` of its first candidate, either of
   * which may be missing.
   */
  datatype AiResponse = AiResponse(text: Option<string>, groundingChunks: Option<seq<GroundingChunk>>)

  /** The call either answers or throws. */
  datatype AiOutcome = Generated(response: AiResponse) | Threw(thrown: Thrown)

  /** What a successful summarization hands back: `{ summary, sources }`. */
  datatype Summarized = Summarized(summary: Option<string>, sources: seq<GroundingSource>)

  const DefaultModel: string := "gemini-2.5-flash"
  const PromptPrefix: string := "Please provide a concise summary of the content found at this URL: "

  /** `modelName || 'gemini-2.5-flash'`: the named model, and the default for a missing or empty name. */
  function ModelFor(modelName: Option<string>): (model: string)
    ensures model != ""
    ensures Truthy(modelName) ==> model == modelName.value
    ensures !Truthy(modelName) ==> model == DefaultModel
  {
    OrElse(modelName, DefaultModel)
  }

  /** The prompt: the fixed request text followed by the URL, verbatim. */
  function SummaryPrompt(url: string): (prompt: string)
    ensures PromptPrefix <= prompt && prompt[|PromptPrefix|..] == url
  {
    PromptPrefix + url
  }

  /** The prompt determines the URL it was built from. */
  lemma SummaryPromptInjective(url1: string, url2: string)
    requires SummaryPrompt(url1) == SummaryPrompt(url2)
    ensures url1 == url2
  {
    assert SummaryPrompt(url1)[|PromptPrefix|..] == url1;
  }

  /** The grounded request both summarizers send for a URL. */
  function SummaryRequest(url: string, modelName: Option<string>): AiRequest {
    AiRequest(ModelFor(modelName), SummaryPrompt(url), true)
  }

  /** `groundingChunks || []`. */
  function ChunksOf(response: AiResponse): (chunks: seq<GroundingChunk>)
    ensures response.groundingChunks.None? ==> chunks == []
    ensures response.groundingChunks.Some? ==> chunks == response.groundingChunks.value
  {
    response.groundingChunks.GetOr([])
  }

  /** `chunk.web?.uri`, with a missing value read as the empty string. */
  function ChunkUri(c: GroundingChunk): string {
    if c.web.Some? then c.web.value.uri.GetOr("") else ""
  }

  /** `chunk.web?.title`. */
  function ChunkTitle(c: GroundingChunk): Option<string> {
    if c.web.Some? then c.web.value.title else None
  }

  /** The filter both summarizers apply: the chunk has a `web` part whose `uri` is truthy. */
  predicate HasUri(c: GroundingChunk)
    ensures HasUri(c) <==> c.web.Some? && Truthy(c.web.value.uri)
  {
    ChunkUri(c) != ""
  }
}
