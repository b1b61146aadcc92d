/** The dashboard's result list (components/dashboard/DashboardView.tsx). */
module Dashboard {
  import opened Types
  import Seqs

  /** `results.filter(r => r.id !== id)`. */
  function WithoutResult(results: seq<WebhookResult>, id: string): (r: seq<WebhookResult>)
    ensures forall x :: x in r <==> x in results && x.id != id
    ensures Seqs.IsSubsequence(r, results)
    ensures forall x :: x in results ==> multiset(r)[x] == if x.id == id then 0 else multiset(results)[x]
  {
    Seqs.RemoveKey(results, ResultId, id)
  }

  /** What the view shows: the "No webhooks configured" state, the waiting placeholder, or the cards. */
  datatype Content = NoWebhooksConfigured | WaitingForEvents | ResultCards(cards: seq<WebhookResult>)

  /**
   * Without configurations the view asks for one whatever the results; with some, it
   * waits while there are no results and otherwise shows one card per result, in order.
   */
  function ContentFor(webhookConfigs: seq<WebhookConfig>, results: seq<WebhookResult>): (c: Content)
    ensures c.NoWebhooksConfigured? <==> |webhookConfigs| == 0
    ensures c.WaitingForEvents? <==> |webhookConfigs| > 0 && |results| == 0
    ensures c.ResultCards? ==> c.cards == results && |c.cards| > 0
  {
    if |webhookConfigs| > 0 then
      if |results| > 0 then ResultCards(results) else WaitingForEvents
    else NoWebhooksConfigured
  }

  /** The result state the view reads and deletes from; the configurations are its input. */
  class DashboardView {
    const webhookConfigs: seq<WebhookConfig>
    var results: seq<WebhookResult>

    constructor (webhookConfigs: seq<WebhookConfig>, results: seq<WebhookResult>)
      ensures this.webhookConfigs == webhookConfigs && this.results == results
    {
      this.webhookConfigs := webhookConfigs;
      this.results := results;
    }

    /** What is on screen now. */
    function Shown(): Content
      reads this
    {
      ContentFor(webhookConfigs, results)
    }

    /** `handleDeleteResult(id)`: every result with this id goes, the others keep their order. */
    method DeleteResult(id: string)
      modifies this
      ensures results == WithoutResult(old(results), id)
    {
      results := WithoutResult(results, id);
    }
  }

  /** Deleting an id no result carries leaves the list as it was. */
  lemma DeleteAbsentResult(results: seq<WebhookResult>, id: string)
    requires forall i :: 0 <= i < |results| ==> results[i].id != id
    ensures WithoutResult(results, id) == results
  {
    Seqs.RemoveAbsentKey(results, ResultId, id);
  }

  /** Deleting the last card brings back the waiting placeholder, as long as a webhook is configured. */
  lemma DeletingLastCardShowsPlaceholder(webhookConfigs: seq<WebhookConfig>, r: WebhookResult)
    requires |webhookConfigs| > 0
    ensures ContentFor(webhookConfigs, WithoutResult([r], r.id)) == WaitingForEvents
  {
    Seqs.FilterCounts([r], Seqs.KeyIsNot(ResultId, r.id), r);
  }
}
