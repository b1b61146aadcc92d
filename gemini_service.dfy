/** `summarizeContentFromUrl` of the front end's direct AI service (services/geminiService.ts). */
module GeminiService {
  import opened Wrappers
  import opened Text
  import opened Types
  import opened Grounding
  import Seqs
  import Server

  /** `{ web: { uri: chunk.web!.uri!, title: chunk.web!.title } }`: the title passes through, possibly missing. */
  function ServiceSource(c: GroundingChunk): (s: GroundingSource)
    ensures HasUri(c) ==> s.web.uri == c.web.value.uri.value && s.web.uri != ""
    ensures HasUri(c) ==> s.web.title == c.web.value.title
  {
    GroundingSource(WebSource(ChunkUri(c), ChunkTitle(c)))
  }

  /** `groundingChunks.filter(chunk => chunk.web?.uri).map(...)`. */
  function ServiceSources(chunks: seq<GroundingChunk>): (sources: seq<GroundingSource>)
    ensures |sources| <= |chunks|
    ensures forall i :: 0 <= i < |sources| ==> sources[i].web.uri != ""
    ensures forall c :: c in chunks && HasUri(c) ==> ServiceSource(c) in sources
    ensures forall j :: 0 <= j < |sources| ==> exists c :: c in chunks && HasUri(c) && sources[j] == ServiceSource(c)
  {
    var kept := Seqs.Filter(chunks, HasUri);
    assert forall i :: 0 <= i < |kept| ==> kept[i] in kept && HasUri(kept[i]) && kept[i] in chunks;
    Seqs.MapContains(kept, ServiceSource);
    Seqs.Map(kept, ServiceSource)
  }

  /**
   * The service and the server cite the same uris in the same order; they differ only
   * in the title, which the server turns into '' when it is missing or empty.
   */
  lemma SourcesAgreeWithServer(chunks: seq<GroundingChunk>)
    ensures |ServiceSources(chunks)| == |Server.ServerSources(chunks)|
    ensures forall i :: 0 <= i < |ServiceSources(chunks)| ==>
      Server.ServerSources(chunks)[i].web.uri == ServiceSources(chunks)[i].web.uri
      && Server.ServerSources(chunks)[i].web.title == Some(OrElse(ServiceSources(chunks)[i].web.title, ""))
  {
  }

  /** The service's sources of a concatenation are those of its parts, one after the other. */
  lemma ServiceSourcesAppend(a: seq<GroundingChunk>, b: seq<GroundingChunk>)
    ensures ServiceSources(a + b) == ServiceSources(a) + ServiceSources(b)
  {
    Seqs.FilterAppend(a, b, HasUri);
    Seqs.MapAppend(Seqs.Filter(a, HasUri), Seqs.Filter(b, HasUri), ServiceSource);
  }

  /** A single chunk yields its pass-through source when it has a uri, and nothing otherwise. */
  lemma ServiceSourcesSingle(c: GroundingChunk)
    ensures ServiceSources([c]) == if HasUri(c) then [ServiceSource(c)] else []
  {
    assert [c][1..] == [];
  }

  /** Two chunks citing the same uri both stay: the service does not deduplicate sources either. */
  lemma ServiceKeepsDuplicateUris(c: GroundingChunk, d: GroundingChunk)
    requires HasUri(c) && HasUri(d) && ChunkUri(c) == ChunkUri(d)
    ensures ServiceSources([c, d]) == [ServiceSource(c), ServiceSource(d)]
  {
    assert [c, d][1..] == [d];
    assert [d][1..] == [];
  }

  const ErrorPrefix: string := "Gemini API Error: "
  const GenericFailure: string := "The model failed to generate a response."

  /**
   * The message of the error the service rethrows: an `Error`'s message behind the fixed
   * prefix, and a fixed text for any other thrown value.
   */
  function FailureMessage(t: Thrown): (m: string)
    ensures t.ErrorObject? ==> ErrorPrefix <= m && m[|ErrorPrefix|..] == t.message
    ensures t.NonError? ==> m == GenericFailure
  {
    match t
    case ErrorObject(message) => ErrorPrefix + message
    case NonError => GenericFailure
  }

  /** The rethrown message tells the two kinds of failure apart, and keeps an `Error`'s message. */
  lemma FailureMessageInjective(t1: Thrown, t2: Thrown)
    requires FailureMessage(t1) == FailureMessage(t2)
    ensures t1 == t2
  {
    assert ErrorPrefix[0] != GenericFailure[0];
    if t1.ErrorObject? && t2.ErrorObject? {
      assert t1.message == FailureMessage(t1)[|ErrorPrefix|..] == t2.message;
    }
  }

  /**
   * The service always calls the model, with the default model when none is named; it
   * fails exactly when the call throws, with FailureMessage of what was thrown, and
   * otherwise returns the text and the sources of the answer (none when it has no
   * grounding chunks).
   */
  function SummarizeContentFromUrl(url: string, modelName: Option<string>, ai: AiRequest -> AiOutcome)
    : (r: Result<Summarized, string>)
    ensures r.Failure? <==> ai(SummaryRequest(url, modelName)).Threw?
    ensures r.Failure? ==> r.error == FailureMessage(ai(SummaryRequest(url, modelName)).thrown)
    ensures r.Success? ==>
      var response := ai(SummaryRequest(url, modelName)).response;
      r.value == Summarized(response.text, ServiceSources(ChunksOf(response)))
    ensures r.Success? && ai(SummaryRequest(url, modelName)).response.groundingChunks.None? ==> r.value.sources == []
  {
    match ai(SummaryRequest(url, modelName))
    case Threw(thrown) => Failure(FailureMessage(thrown))
    case Generated(response) => Success(Summarized(response.text, ServiceSources(ChunksOf(response))))
  }
}
