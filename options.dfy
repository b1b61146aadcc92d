/** The extension's options page (chrome-extension/options.tsx). */
module Options {
  import opened Wrappers
  import opened Text
  import opened Types

  const EmptyName: string := "Webhook name cannot be empty."
  const WebhookDeleted: string := "Webhook deleted."
  const SettingsSaved: string := "Settings saved successfully!"
  const NotConfigured: string := "Error: API Server URL is not configured."
  const TestFailed: string := "Test failed. Check extension console for details."

  /** The page URL every test request asks to have summarized. */
  const TestPageUrl: string := "https://example.com/test-from-extension"

  /** The request `handleTestWebhook` sends, or None when no API server URL is set. */
  function TestRequest(apiBaseUrl: string, webhookId: string): (r: Option<WebhookRequest>)
    ensures r.None? <==> apiBaseUrl == ""
    ensures r.Some? ==> r.value.pageUrl == TestPageUrl && WebhookIdOf(apiBaseUrl, r.value.url) == Some(webhookId)
  {
    if apiBaseUrl == "" then None else Some(WebhookRequest(WebhookUrl(apiBaseUrl, webhookId), TestPageUrl))
  }

  /**
   * The page's state: the configurations, the API server URL, the name typed for a new
   * webhook, and the status line. Storage writes are taken to complete at once.
   */
  class OptionsPage {
    var configs: seq<WebhookConfig>
    var apiBaseUrl: string
    var newWebhookName: string
    var status: string

    constructor ()
      ensures configs == [] && apiBaseUrl == "" && newWebhookName == "" && status == ""
    {
      configs, apiBaseUrl, newWebhookName, status := [], "", "", "";
    }

    /**
     * The load effect: missing stored values fall back to `defaultStorage`, so after
     * loading the API server URL is never empty.
     */
    method Load(stored: StoredSettings)
      modifies this
      ensures configs == stored.webhookConfigs.GetOr(DefaultWebhookConfigs)
      ensures apiBaseUrl == OrElse(stored.apiBaseUrl, DefaultApiBaseUrl)
      ensures apiBaseUrl != ""
      ensures newWebhookName == old(newWebhookName) && status == old(status)
    {
      configs := stored.webhookConfigs.GetOr(DefaultWebhookConfigs);
      apiBaseUrl := OrElse(stored.apiBaseUrl, DefaultApiBaseUrl);
    }

    /** The URL field's `onChange`. */
    method SetApiBaseUrl(url: string)
      modifies this
      ensures apiBaseUrl == url
      ensures configs == old(configs) && newWebhookName == old(newWebhookName) && status == old(status)
    {
      apiBaseUrl := url;
    }

    /** The name field's `onChange`. */
    method SetNewWebhookName(name: string)
      modifies this
      ensures newWebhookName == name
      ensures configs == old(configs) && apiBaseUrl == old(apiBaseUrl) && status == old(status)
    {
      newWebhookName := name;
    }

    /** `handleSaveSettings`: the URL is saved and the status says so. */
    method SaveSettings()
      modifies this
      ensures status == SettingsSaved
      ensures configs == old(configs) && apiBaseUrl == old(apiBaseUrl) && newWebhookName == old(newWebhookName)
    {
      status := SettingsSaved;
    }

    /**
     * `handleAddWebhook` with the generated id `id`: a blank name only sets the status;
     * otherwise one configuration with the trimmed name and no model is appended after the
     * existing ones, the field is cleared and the status names the new webhook.
     */
    method AddWebhook(id: string)
      modifies this
      ensures apiBaseUrl == old(apiBaseUrl)
      ensures IsBlank(old(newWebhookName)) ==>
        configs == old(configs) && newWebhookName == old(newWebhookName) && status == EmptyName
      ensures !IsBlank(old(newWebhookName)) ==>
        && Some(configs) == AddConfig(old(configs), old(newWebhookName), id, None)
        && newWebhookName == ""
        && status == "Webhook \"" + Trim(old(newWebhookName)) + "\" added."
    {
      var added := AddConfig(configs, newWebhookName, id, None);
      if added.None? {
        status := EmptyName;
        return;
      }
      var name := Trim(newWebhookName);
      configs := added.value;
      newWebhookName := "";
      status := "Webhook \"" + name + "\" added.";
    }

    /** `handleDeleteWebhook(id)`: every configuration with this id goes, the rest keep their order. */
    method DeleteWebhook(id: string)
      modifies this
      ensures configs == WithoutConfig(old(configs), id)
      ensures status == WebhookDeleted
      ensures apiBaseUrl == old(apiBaseUrl) && newWebhookName == old(newWebhookName)
    {
      configs := WithoutConfig(configs, id);
      status := WebhookDeleted;
    }

    /**
     * `handleTestWebhook(webhookId, webhookName)`, with `fetch` answering the request. An
     * empty API server URL sets an error status and sends nothing; otherwise the test URL
     * is posted to that webhook, and the status ends as success only for an ok response.
     */
    method TestWebhook(webhookId: string, webhookName: string, fetch: WebhookRequest -> FetchOutcome)
      returns (sent: Option<WebhookRequest>)
      modifies this
      ensures sent == TestRequest(old(apiBaseUrl), webhookId)
      ensures sent.None? ==> status == NotConfigured
      ensures sent.Some? && Settle(fetch(sent.value)).Success? ==>
        status == "Test for \"" + webhookName + "\" sent successfully!"
      ensures sent.Some? && Settle(fetch(sent.value)).Failure? ==> status == TestFailed
      ensures configs == old(configs) && apiBaseUrl == old(apiBaseUrl) && newWebhookName == old(newWebhookName)
    {
      if apiBaseUrl == "" {
        status := NotConfigured;
        return None;
      }
      var request := WebhookRequest(WebhookUrl(apiBaseUrl, webhookId), TestPageUrl);
      sent := Some(request);
      status := "Sending test to \"" + webhookName + "\"...";
      match Settle(fetch(request)) {
        case Success(_) =>
          status := "Test for \"" + webhookName + "\" sent successfully!";
        case Failure(_) =>
          status := TestFailed;
      }
    }
  }
}
