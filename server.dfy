/** The `/api/summarize` endpoint of the Express server (server.js). */
module Server {
  import opened Wrappers
  import opened Text
  import opened Types
  import opened Grounding
  import Seqs

  /** The JSON body `{ url, modelName }`; either field may be missing. */
  datatype SummarizeBody = SummarizeBody(url: Option<string>, modelName: Option<string>)

  /** A JSON reply: `{ message }` or `{ summary, sources }`. */
  datatype ReplyBody = Message(message: string) | Summary(result: Summarized)
  datatype Reply = Reply(status: int, body: ReplyBody)

  const UrlRequired: string := "URL is required."
  const InvalidUrlFormat: string := "Invalid URL format provided."
  const ServerError: string := "Failed to generate summary due to a server error."

  /** `{ web: { uri: chunk.web.uri, title: chunk.web.title || '' } }`. */
  function ServerSource(c: GroundingChunk): (s: GroundingSource)
    ensures HasUri(c) ==> s.web.uri == c.web.value.uri.value && s.web.uri != ""
    ensures HasUri(c) ==> s.web.title == Some(if Truthy(c.web.value.title) then c.web.value.title.value else "")
  {
    GroundingSource(WebSource(ChunkUri(c), Some(OrElse(ChunkTitle(c), ""))))
  }

  /**
   * `groundingChunks.filter(chunk => chunk.web && chunk.web.uri).map(...)`: one source for
   * every chunk with a uri, none for the others, each with a non-empty uri and a title
   * that is always a string. ServerSourcesAppend and ServerSourcesSingle pin down the
   * order: the sources of a list are those of its chunks, one chunk after the other.
   */
  function ServerSources(chunks: seq<GroundingChunk>): (sources: seq<GroundingSource>)
    ensures |sources| <= |chunks|
    ensures forall i :: 0 <= i < |sources| ==> sources[i].web.uri != "" && sources[i].web.title.Some?
    ensures forall c :: c in chunks && HasUri(c) ==> ServerSource(c) in sources
    ensures forall j :: 0 <= j < |sources| ==> exists c :: c in chunks && HasUri(c) && sources[j] == ServerSource(c)
  {
    var kept := Seqs.Filter(chunks, HasUri);
    assert forall i :: 0 <= i < |kept| ==> kept[i] in kept && HasUri(kept[i]) && kept[i] in chunks;
    Seqs.MapContains(kept, ServerSource);
    Seqs.Map(kept, ServerSource)
  }

  /** The sources of two lists of chunks, one after the other. */
  lemma ServerSourcesAppend(a: seq<GroundingChunk>, b: seq<GroundingChunk>)
    ensures ServerSources(a + b) == ServerSources(a) + ServerSources(b)
  {
    Seqs.FilterAppend(a, b, HasUri);
    Seqs.MapAppend(Seqs.Filter(a, HasUri), Seqs.Filter(b, HasUri), ServerSource);
  }

  /** A single chunk yields its source when it has a uri, and nothing otherwise. */
  lemma ServerSourcesSingle(c: GroundingChunk)
    ensures ServerSources([c]) == if HasUri(c) then [ServerSource(c)] else []
  {
    assert [c][1..] == [];
  }

  /** Two chunks citing the same uri both stay: the server does not deduplicate sources. */
  lemma ServerKeepsDuplicateUris(c: GroundingChunk, d: GroundingChunk)
    requires HasUri(c) && HasUri(d) && ChunkUri(c) == ChunkUri(d)
    ensures ServerSources([c, d]) == [ServerSource(c), ServerSource(d)]
  {
    ServerSourcesAppend([c], [d]);
    ServerSourcesSingle(c);
    ServerSourcesSingle(d);
    assert [c, d] == [c] + [d];
  }

  /**
   * The handler: a missing or empty `url` is refused first and a malformed one second,
   * both with 400 and without calling the model; a valid one is summarized with the
   * requested model (the default when none is named). A model failure gives 500 and a
   * fixed message; only a model answer gives a 200 reply with a summary.
   * `isUrl` stands for `new URL(url)` not throwing; `ai` for the model call.
   */
  method HandleSummarize(body: SummarizeBody, isUrl: string -> bool, ai: AiRequest -> AiOutcome)
    returns (call: Option<AiRequest>, reply: Reply)
    ensures !Truthy(body.url) ==> call == None && reply == Reply(400, Message(UrlRequired))
    ensures Truthy(body.url) && !isUrl(body.url.value) ==>
      call == None && reply == Reply(400, Message(InvalidUrlFormat))
    ensures Truthy(body.url) && isUrl(body.url.value) ==>
      call == Some(SummaryRequest(body.url.value, body.modelName))
    ensures call.Some? && ai(call.value).Threw? ==> reply == Reply(500, Message(ServerError))
    ensures call.Some? && ai(call.value).Generated? ==>
      var response := ai(call.value).response;
      reply == Reply(200, Summary(Summarized(response.text, ServerSources(ChunksOf(response)))))
    ensures call.Some? && ai(call.value).Generated? && ai(call.value).response.groundingChunks.None? ==>
      reply.body.result.sources == []
    ensures reply.body.Summary? <==> call.Some? && ai(call.value).Generated?
  {
    if !Truthy(body.url) {
      return None, Reply(400, Message(UrlRequired));
    }
    var url := body.url.value;
    if !isUrl(url) {
      return None, Reply(400, Message(InvalidUrlFormat));
    }
    var request := SummaryRequest(url, body.modelName);
    call := Some(request);
    match ai(request) {
      case Threw(_) =>
        reply := Reply(500, Message(ServerError));
      case Generated(response) =>
        var sources := ServerSources(ChunksOf(response));
        reply := Reply(200, Summary(Summarized(response.text, sources)));
    }
  }
}
