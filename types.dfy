/**
 * The data shapes the dashboard and the browser extension share: webhook
 * configurations, results, the stored extension settings, and the outcome of a
 * `fetch` to a webhook.
 */
module Types {
  import opened Wrappers
  import opened Text
  import Seqs

  /**
   * A configured webhook. The dashboard always records the chosen model; the
   * extension's configurations never carry one.
   */
  datatype WebhookConfig = WebhookConfig(id: string, name: string, aiModel: Option<string>)

  function ConfigId(c: WebhookConfig): string {
    c.id
  }

  /** `configs.filter(wh => wh.id !== id)`, the delete of both settings pages. */
  function WithoutConfig(configs: seq<WebhookConfig>, id: string): (r: seq<WebhookConfig>)
    ensures forall c :: c in r <==> c in configs && c.id != id
    ensures Seqs.IsSubsequence(r, configs)
    ensures forall c :: c in configs ==> multiset(r)[c] == if c.id == id then 0 else multiset(configs)[c]
  {
    Seqs.RemoveKey(configs, ConfigId, id)
  }

  /** `configs.find(c => c.id === id)`. */
  function FindConfig(configs: seq<WebhookConfig>, id: string): (r: Option<WebhookConfig>)
    ensures r.None? <==> forall i :: 0 <= i < |configs| ==> configs[i].id != id
    ensures r.Some? ==> r.value in configs && r.value.id == id
    ensures r.Some? ==>
      exists i :: 0 <= i < |configs| && configs[i] == r.value && forall j :: 0 <= j < i ==> configs[j].id != id
  {
    Seqs.Find(configs, (c: WebhookConfig) => c.id == id)
  }

  /**
   * The add handler of both settings pages: a name that is blank once trimmed is
   * rejected (None); otherwise exactly one configuration, carrying the trimmed name,
   * is appended after the existing ones, which are left as they were.
   */
  function AddConfig(configs: seq<WebhookConfig>, name: string, id: string, aiModel: Option<string>)
    : (r: Option<seq<WebhookConfig>>)
    ensures r.None? <==> IsBlank(name)
    ensures r.Some? ==> |r.value| == |configs| + 1 && r.value[..|configs|] == configs
    ensures r.Some? ==> r.value[|configs|] == WebhookConfig(id, Trim(name), aiModel)
    ensures r.Some? ==> Named(r.value[|configs|])
  {
    if IsBlank(name) then None
    else
      TrimIdempotent(name);
      Some(configs + [WebhookConfig(id, Trim(name), aiModel)])
  }

  /** A configuration whose name is non-empty and already trimmed. */
  predicate Named(c: WebhookConfig) {
    c.name != "" && Trim(c.name) == c.name
  }

  /** Every configuration of the list is Named. */
  predicate AllNamed(configs: seq<WebhookConfig>) {
    forall i :: 0 <= i < |configs| ==> Named(configs[i])
  }

  /** Adding and deleting through the settings pages keep every name non-blank and trimmed. */
  lemma AllNamedPreserved(configs: seq<WebhookConfig>, name: string, id: string, aiModel: Option<string>, gone: string)
    requires AllNamed(configs)
    ensures AddConfig(configs, name, id, aiModel).Some? ==> AllNamed(AddConfig(configs, name, id, aiModel).value)
    ensures AllNamed(WithoutConfig(configs, gone))
  {
    var r := WithoutConfig(configs, gone);
    forall i | 0 <= i < |r| ensures Named(r[i]) {
      assert r[i] in configs;
    }
    var added := AddConfig(configs, name, id, aiModel);
    if added.Some? {
      forall i | 0 <= i < |added.value| ensures Named(added.value[i]) {
        if i < |configs| { assert added.value[i] == added.value[..|configs|][i]; }
      }
    }
  }

  /** An unknown id really is absent: deleting it leaves the list as it was. */
  lemma DeleteUnknownIsNoOp(configs: seq<WebhookConfig>, id: string)
    requires FindConfig(configs, id).None?
    ensures WithoutConfig(configs, id) == configs
  {
    assert forall c :: c in configs ==> ConfigId(c) != id;
    Seqs.RemoveAbsentKey(configs, ConfigId, id);
  }

  /** A webhook just added is removed again by deleting its id, leaving the list as before when its id was new. */
  lemma DeleteUndoesAdd(configs: seq<WebhookConfig>, name: string, id: string, aiModel: Option<string>)
    requires FindConfig(configs, id).None?
    requires !IsBlank(name)
    ensures WithoutConfig(AddConfig(configs, name, id, aiModel).value, id) == configs
  {
    var c := WebhookConfig(id, Trim(name), aiModel);
    assert AddConfig(configs, name, id, aiModel).value == configs + [c];
    Seqs.RemoveKeyAppend(configs, [c], ConfigId, id);
    DeleteUnknownIsNoOp(configs, id);
    assert [c][1..] == [];
  }

  /** `'loading' | 'success' | 'error'`. */
  datatype WebhookResultStatus = Loading | Succeeded | Failed

  /** `'url' | 'file'`. */
  datatype InputType = UrlInput | FileInput

  /**
   * A grounding source in the nested shape the code produces and the result card reads:
   * `{ web: { uri, title } }`.
   */
  datatype GroundingSource = GroundingSource(web: WebSource)
  datatype WebSource = WebSource(uri: string, title: Option<string>)

  /** A summarization result shown on the dashboard. */
  datatype WebhookResult = WebhookResult(
    id: string, url: Option<string>, fileName: Option<string>, inputType: InputType,
    summary: string, sources: seq<GroundingSource>, timestamp: int,
    status: WebhookResultStatus, webhookName: string)

  function ResultId(r: WebhookResult): string {
    r.id
  }

  /** A value a failed operation throws: an `Error` with its message, or anything else. */
  datatype Thrown = ErrorObject(message: string) | NonError

  /** `e instanceof Error ? e.message : fallback`. */
  function MessageOr(t: Thrown, fallback: string): (m: string)
    ensures t.ErrorObject? ==> m == t.message
    ensures t.NonError? ==> m == fallback
  {
    match t
    case ErrorObject(message) => message
    case NonError => fallback
  }

  /** What `fetch` settles to: a response (ok or not), or a rejection. */
  datatype HttpResponse = HttpResponse(ok: bool, status: int, statusText: string, text: string)
  datatype FetchOutcome = Responded(response: HttpResponse) | Rejected(thrown: Thrown)

  /** A POST to a webhook URL with the JSON body `{ url: pageUrl }`. */
  datatype WebhookRequest = WebhookRequest(url: string, pageUrl: string)

  /** The error the popup and the background worker throw for a response that is not ok. */
  function RequestFailed(r: HttpResponse): (t: Thrown)
    ensures t.ErrorObject? && "Request failed: " <= t.message
    ensures |t.message| == |"Request failed: "| + |r.statusText| + |" - "| + |r.text|
    ensures var k := |"Request failed: "|; t.message[k..k + |r.statusText|] == r.statusText
    ensures var k := |"Request failed: "| + |r.statusText|; t.message[k..k + |" - "|] == " - "
    ensures t.message[|t.message| - |r.text|..] == r.text
  {
    ErrorObject("Request failed: " + r.statusText + " - " + r.text)
  }

  /**
   * How a webhook request ended once the non-ok check has run: success only for an ok
   * response; a non-ok response becomes RequestFailed, a rejection stays as thrown.
   */
  function Settle(outcome: FetchOutcome): (r: Result<HttpResponse, Thrown>)
    ensures r.Success? <==> outcome.Responded? && outcome.response.ok
    ensures r.Failure? && outcome.Responded? ==> r.error == RequestFailed(outcome.response)
    ensures outcome.Rejected? ==> r == Failure(outcome.thrown)
    ensures r.Success? ==> r.value == outcome.response
  {
    match outcome
    case Responded(response) => if response.ok then Success(response) else Failure(RequestFailed(response))
    case Rejected(thrown) => Failure(thrown)
  }

  /** A browser tab; only its URL matters, and it may be missing. */
  datatype Tab = Tab(url: Option<string>)

  /** What `chrome.storage.sync.get` hands the extension; either key may be missing. */
  datatype StoredSettings = StoredSettings(webhookConfigs: Option<seq<WebhookConfig>>, apiBaseUrl: Option<string>)

  /** `defaultStorage`: no configurations, and a local development server. */
  const DefaultWebhookConfigs: seq<WebhookConfig> := []
  const DefaultApiBaseUrl: string := "http://localhost:3000"
}
